/** The samba container configuration that is stored as JSON in a ConfigMap. */
module ContainerConfig {
  import opened Basics

  type Key = string

  /** A Go map of smb.conf parameters; reading a nil map finds nothing, writing one panics. */
  datatype Options = NilMap | Opts(entries: map<string, string>)
  {
    function Entries(): map<string, string> {
      if NilMap? then map[] else entries
    }
  }

  datatype Permissions = Permissions(procedure: string, statusXAttr: string, mode: string)

  datatype ConfigSection = ConfigSection(
    shares: seq<Key>,
    globals: seq<Key>,
    instanceName: string,
    features: seq<string>,
    permissions: Permissions)

  datatype UserEntry = UserEntry(name: string, password: string)

  /** The maps of a configuration that a JSON null leaves nil; reading a nil map finds nothing. */
  datatype Field = ConfigsField | SharesField | GlobalsField

  datatype RawConfig = RawConfig(
    configs: map<Key, ConfigSection>,
    shares: map<Key, Options>,
    globals: map<Key, Options>,
    users: map<Key, seq<UserEntry>>,
    nils: set<Field>)
  {
    predicate NilMapsAreEmpty() {
      && (ConfigsField in nils ==> configs == map[])
      && (SharesField in nils ==> shares == map[])
      && (GlobalsField in nils ==> globals == map[])
    }
  }

  type Config = c: RawConfig | c.NilMapsAreEmpty() witness RawConfig(map[], map[], map[], map[], {})

  const GLOBALS: Key := "globals"
  const BROWSEABLE := "browseable"
  const READ_ONLY := "read only"

  function YesNo(b: bool): string {
    if b then "yes" else "no"
  }

  function New(): Config {
    RawConfig(map[], map[], map[], map[], {})
  }

  function NewGlobals(port: nat): map<string, string> {
    map["load printers" := "no", "printing" := "bsd", "printcap name" := "/dev/null",
        "disable spoolss" := "yes", "dos charset" := "ascii", "smb ports" := Itoa(port),
        "vfs objects" := "fileid", "fileid:algorithm" := "fsid"]
  }

  function NewSimpleShare(path: string): map<string, string> {
    map["path" := path, READ_ONLY := "no"]
  }

  function NewPermissions(): Permissions {
    Permissions("initialize-share-perms", "user.share-perms-status", "0777")
  }

  function NewDefaultUsers(): map<Key, seq<UserEntry>> {
    map["all_entries" := [UserEntry("sambauser", "samba")]]
  }

  /** What is left of an options map after it was written with `omitempty` and read back. */
  function ReloadOptions(o: Options): Options {
    if o.Entries() == map[] then NilMap else o
  }

  function ReloadedOptions(m: map<Key, Options>): map<Key, Options> {
    map k | k in m :: ReloadOptions(m[k])
  }

  /** Writing a configuration as JSON, without its empty and nil maps, and reading it back into a new one. */
  function Reload(c: Config): Config {
    c.(shares := ReloadedOptions(c.shares), globals := ReloadedOptions(c.globals), nils := {})
  }

  predicate AllFilled(m: map<Key, Options>) {
    forall k :: k in m ==> m[k].Opts? && m[k].entries != map[]
  }

  /** No map is nil and no options map is empty, so no write to one can panic and none is lost in JSON. */
  predicate Filled(c: Config) {
    c.nils == {} && AllFilled(c.shares) && AllFilled(c.globals)
  }

  lemma ReloadIsIdentityIffNoEmptyMap(c: Config)
    ensures Filled(c) ==> Reload(c) == c
    ensures Reload(Reload(c)) == Reload(c)
    ensures Reload(c) == c ==> forall k :: k in c.shares && c.shares[k].Opts? ==> c.shares[k].entries != map[]
  {
  }
}
