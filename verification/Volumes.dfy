/** Volumes with their mounts, and the keeper that collects them for a pod or a container. */
module Volumes {
  import opened Basics

  type Tag = bv8

  const TAG_DATA: Tag := 1
  const TAG_CONFIG: Tag := 2
  const TAG_META: Tag := 4
  const TAG_CTDB: Tag := 8

  datatype Source =
    | ClaimSource(claim: string)
    | ConfigMapSource(name: string)
    | SecretSource(secret: string, key: string, path: string)
    | EmptyDir(memory: bool)

  datatype Volume = Volume(name: string, source: Source)

  datatype Mount = Mount(name: string, path: string)

  datatype VolMount = VolMount(volume: Volume, mount: Mount, tag: Tag)

  datatype VolError = Mismatch(volume: string, mount: string) | Duplicate(name: string)

  /** Each volume and its mount have one name, and no two volumes share a name. */
  predicate Good(vols: seq<VolMount>) {
    && (forall i :: 0 <= i < |vols| ==> vols[i].volume.name == vols[i].mount.name)
    && (forall i, j :: 0 <= i < j < |vols| ==> vols[i].volume.name != vols[j].volume.name)
  }

  predicate Carries(v: VolMount, t: Tag) {
    v.tag & t == t
  }

  /** The volumes that do not carry every bit of the mask, in order. */
  function Kept(vols: seq<VolMount>, t: Tag): (r: seq<VolMount>)
    ensures forall v :: v in r <==> v in vols && v.tag & t != t
  {
    if vols == [] then []
    else
      assert vols == [vols[0]] + vols[1..];
      (if Carries(vols[0], t) then [] else [vols[0]]) + Kept(vols[1..], t)
  }

  lemma {:induction false} KeptAppend(vols: seq<VolMount>, v: VolMount, t: Tag)
    ensures Kept(vols + [v], t) == Kept(vols, t) + (if Carries(v, t) then [] else [v])
  {
    if vols == [] {
    } else {
      assert (vols + [v])[1..] == vols[1..] + [v];
      KeptAppend(vols[1..], v, t);
    }
  }

  /** A list of volumes over a backing array, of which only the first len elements are kept. Additions write into
      the array while there is room, so whoever shares it would see them. */
  class VolKeeper {
    var buf: array<VolMount>
    var len: nat

    ghost predicate Valid()
      reads this
    {
      len <= buf.Length
    }

    ghost function Vols(): seq<VolMount>
      reads this, buf
      requires Valid()
    {
      buf[..len]
    }

    constructor ()
      ensures Valid() && fresh(buf) && Vols() == []
    {
      buf, len := new VolMount[0], 0;
    }

    method Add(v: VolMount)
      requires Valid()
      modifies this, buf
      ensures Valid() && if old(len) < old(buf.Length) then buf == old(buf) else fresh(buf)
      ensures Vols() == old(Vols()) + [v]
    {
      if len == buf.Length {
        var kept := buf[..];
        buf := new VolMount[2 * |kept| + 1](i requires 0 <= i < 2 * |kept| + 1 => if i < |kept| then kept[i] else v);
        assert buf[..len] == kept;
      }
      buf[len] := v;
      len := len + 1;
    }

    method Extend(vs: seq<VolMount>)
      requires Valid()
      modifies this, buf
      ensures Valid() && (buf == old(buf) || fresh(buf))
      ensures Vols() == old(Vols()) + vs
    {
      for i := 0 to |vs|
        invariant Valid() && (buf == old(buf) || fresh(buf))
        invariant Vols() == old(Vols()) + vs[..i]
      {
        Add(vs[i]);
        assert vs[..i + 1] == vs[..i] + [vs[i]];
      }
      assert vs[..|vs|] == vs;
    }

    /** No error if and only if the volumes are good; an error names an offender. */
    method Validate() returns (err: Option<VolError>)
      requires Valid()
      ensures err.None? <==> Good(Vols())
      ensures err.Some? && err.value.Mismatch? ==>
              err.value.volume != err.value.mount &&
              exists i :: 0 <= i < len &&
                Vols()[i].volume.name == err.value.volume && Vols()[i].mount.name == err.value.mount
      ensures err.Some? && err.value.Duplicate? ==>
              exists i, j :: 0 <= i < j < len && Vols()[i].volume.name == err.value.name == Vols()[j].volume.name
    {
      var names: set<string> := {};
      for i := 0 to len
        invariant Good(Vols()[..i])
        invariant forall n :: n in names <==> exists j :: 0 <= j < i && Vols()[j].volume.name == n
      {
        var v := buf[i];
        assert v == Vols()[i];
        if v.volume.name != v.mount.name {
          return Some(Mismatch(v.volume.name, v.mount.name));
        }
        if v.volume.name in names {
          return Some(Duplicate(v.volume.name));
        }
        names := names + {v.volume.name};
      }
      assert Vols()[..len] == Vols();
      return None;
    }

    /** All volumes; panics unless they are good. */
    method All() returns (r: seq<VolMount>)
      requires Valid() && Good(Vols())
      ensures r == Vols()
    {
      var err := Validate();
      assert err.None?;
      return buf[..len];
    }

    /** A keeper of the same volumes with an array of its own. */
    method Clone() returns (k: VolKeeper)
      requires Valid()
      ensures fresh(k) && fresh(k.buf) && k.Valid() && k.Vols() == Vols()
    {
      k := new VolKeeper();
      var kept := buf[..len];
      k.buf := new VolMount[|kept|](i requires 0 <= i < |kept| => kept[i]);
      k.len := len;
      assert k.buf[..k.len] == kept;
    }

    /** A new keeper of the volumes that do not match the mask; this one stays as it is. */
    method Exclude(t: Tag) returns (k: VolKeeper)
      requires Valid()
      ensures fresh(k) && fresh(k.buf) && k.Valid() && k.Vols() == Kept(Vols(), t)
    {
      k := new VolKeeper();
      assert Kept(Vols()[..0], t) == [];
      hide Kept, Carries;
      for i := 0 to len
        invariant fresh(k) && fresh(k.buf) && k.Valid() && k.Vols() == Kept(Vols()[..i], t)
      {
        assert Vols()[..i + 1] == Vols()[..i] + [buf[i]];
        KeptAppend(Vols()[..i], buf[i], t);
        if Carries(buf[i], t) {
          continue;
        }
        k.Add(buf[i]);
      }
      assert Vols()[..len] == Vols();
    }
  }

  /** What is added to either of a keeper and its clone later on, in any order, reaches only that one. */
  method CloneIsSeparate(k: VolKeeper, toClone: seq<VolMount>, toKeeper: seq<VolMount>) returns (c: VolKeeper)
    requires k.Valid()
    modifies k, k.buf
    ensures k.Valid() && k.Vols() == old(k.Vols()) + toKeeper
    ensures fresh(c) && c.Valid() && c.Vols() == old(k.Vols()) + toClone
  {
    c := k.Clone();
    c.Extend(toClone);
    k.Extend(toKeeper);
  }
}
