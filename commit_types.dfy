/**
 * The fact records a host reports (system, OS, time, users, groups,
 * interfaces, addresses, packages), their comparison projections, and the
 * table of endpoints each resource is synced to. `GetData` gives the part of
 * a record that a diff compares: the record without its server-side ID and
 * without the fields that change on their own.
 */
module CommitTypes {

  /** How a resource is synced: one row or many, its endpoint and the suffix of its sync action. */
  datatype CommitDef = CommitDef(multiRow: bool, url: string, urlSuffix: string)

  /** The endpoint table, keyed by resource name. */
  const CommitDefs: map<string, CommitDef> := map[
    "server" := CommitDef(false, "/api/servers/servers/", "-/sync/"),
    "info" := CommitDef(false, "/api/proc/info/", "-/sync/"),
    "os" := CommitDef(false, "/api/proc/os/", "-/sync/"),
    "time" := CommitDef(false, "/api/proc/time/", "-/sync/"),
    "groups" := CommitDef(true, "/api/proc/groups/", "sync/"),
    "users" := CommitDef(true, "/api/proc/users/", "sync/"),
    "interfaces" := CommitDef(true, "/api/proc/interfaces/", "sync/"),
    "addresses" := CommitDef(true, "/api/proc/addresses/", "sync/"),
    "packages" := CommitDef(true, "/api/proc/packages/", "sync/")
  ]

  /** Single-row resources sync through "-/sync/", multi-row ones through "sync/". */
  lemma CommitDefsSuffix(k: string)
    requires k in CommitDefs
    ensures !CommitDefs[k].multiRow <==> CommitDefs[k].urlSuffix == "-/sync/"
    ensures CommitDefs[k].multiRow <==> CommitDefs[k].urlSuffix == "sync/"
  {
  }

  /** Every endpoint lies under "/api/" and ends with a slash. */
  lemma CommitDefsUrls(k: string)
    requires k in CommitDefs
    ensures "/api/" <= CommitDefs[k].url
    ensures CommitDefs[k].url[|CommitDefs[k].url| - 1] == '/'
  {
  }

  /** The table has exactly nine resources. */
  lemma CommitDefsSize()
    ensures CommitDefs.Keys
            == {"server", "info", "os", "time", "groups", "users", "interfaces", "addresses", "packages"}
    ensures |CommitDefs| == 9
  {
    var names := {"server", "info", "os", "time", "groups", "users", "interfaces", "addresses", "packages"};
    assert |names| == 9;
    assert CommitDefs.Keys == names;
    assert |CommitDefs| == |CommitDefs.Keys|;
  }

  datatype SystemData = SystemData(
    id: string, uuid: string, cpuType: string, cpuBrand: string,
    cpuPhysicalCores: int, cpuLogicalCores: int, physicalMemory: nat,
    hardwareVendor: string, hardwareModel: string, hardwareSerial: string,
    computerName: string, hostname: string, localHostname: string)
  {
    /** Everything but the ID. */
    function GetData(): (r: SystemData)
      ensures r == this.(id := "")
    {
      SystemData("", uuid, cpuType, cpuBrand, cpuPhysicalCores, cpuLogicalCores, physicalMemory,
                 hardwareVendor, hardwareModel, hardwareSerial, computerName, hostname, localHostname)
    }
  }

  datatype OSData = OSData(
    id: string, name: string, version: string, major: int, minor: int, patch: int,
    platform: string, platformLike: string)
  {
    /** Everything but the ID. */
    function GetData(): (r: OSData)
      ensures r == this.(id := "")
    {
      OSData("", name, version, major, minor, patch, platform, platformLike)
    }
  }

  datatype TimeData = TimeData(id: string, datetime: string, bootTime: nat, timezone: string, uptime: nat)
  {
    /** Everything but the ID and the boot time. */
    function GetData(): (r: TimeData)
      ensures r == this.(id := "", bootTime := 0)
    {
      TimeData("", datetime, 0, timezone, uptime)
    }
  }

  datatype UserData = UserData(
    id: string, uid: int, gid: int, username: string, description: string, directory: string, shell: string)
  {
    /** Everything but the ID and the description. */
    function GetData(): (r: UserData)
      ensures r == this.(id := "", description := "")
    {
      UserData("", uid, gid, username, "", directory, shell)
    }
  }

  datatype GroupData = GroupData(id: string, gid: int, groupName: string)
  {
    /** Everything but the ID. */
    function GetData(): (r: GroupData)
      ensures r == this.(id := "")
    {
      GroupData("", gid, groupName)
    }
  }

  datatype SystemPackageData = SystemPackageData(id: string, name: string, version: string, source: string, arch: string)
  {
    /** Everything but the ID. */
    function GetData(): (r: SystemPackageData)
      ensures r == this.(id := "")
    {
      SystemPackageData("", name, version, source, arch)
    }
  }

  datatype Interface = Interface(
    id: string, name: string, mac: string, ifaceType: int, flags: int, mtu: int, linkSpeed: int)
  {
    /** Everything but the ID. */
    function GetData(): (r: Interface)
      ensures r == this.(id := "")
    {
      Interface("", name, mac, ifaceType, flags, mtu, linkSpeed)
    }
  }

  datatype Address = Address(id: string, address: string, broadcast: string, interfaceName: string, mask: string)
  {
    /** Everything but the ID. */
    function GetData(): (r: Address)
      ensures r == this.(id := "")
    {
      Address("", address, broadcast, interfaceName, mask)
    }
  }

  /** A record key: a string for most records, the numeric group ID for groups. */
  datatype Key = Text(text: string) | Number(number: int)

  /** Any of the eight comparable records. */
  datatype Comparable =
    | System(system: SystemData)
    | OS(os: OSData)
    | Clock(time: TimeData)
    | User(user: UserData)
    | Group(group: GroupData)
    | Package(package: SystemPackageData)
    | Iface(iface: Interface)
    | Addr(addr: Address)
  {
    function GetID(): string {
      match this
      case System(s) => s.id
      case OS(o) => o.id
      case Clock(t) => t.id
      case User(u) => u.id
      case Group(g) => g.id
      case Package(p) => p.id
      case Iface(i) => i.id
      case Addr(a) => a.id
    }

    function GetKey(): Key {
      match this
      case System(s) => Text(s.uuid)
      case OS(o) => Text(o.name)
      case Clock(t) => Text(t.timezone)
      case User(u) => Text(u.username)
      case Group(g) => Number(g.gid)
      case Package(p) => Text(p.name)
      case Iface(i) => Text(i.name)
      case Addr(a) => Text(a.address)
    }

    /** The same record with its ID cleared, so the result of GetData carries no ID, the key and the kind are kept. */
    function GetData(): (r: Comparable)
      ensures r.GetID() == ""
      ensures r.GetKey() == GetKey()
      ensures r.System? == System? && r.OS? == OS? && r.Clock? == Clock? && r.User? == User?
      ensures r.Group? == Group? && r.Package? == Package? && r.Iface? == Iface? && r.Addr? == Addr?
    {
      match this
      case System(s) => System(s.GetData())
      case OS(o) => OS(o.GetData())
      case Clock(t) => Clock(t.GetData())
      case User(u) => User(u.GetData())
      case Group(g) => Group(g.GetData())
      case Package(p) => Package(p.GetData())
      case Iface(i) => Iface(i.GetData())
      case Addr(a) => Addr(a.GetData())
    }

    /** The same record with another ID. */
    function WithID(newId: string): (r: Comparable)
      ensures r.GetID() == newId
    {
      match this
      case System(s) => System(s.(id := newId))
      case OS(o) => OS(o.(id := newId))
      case Clock(t) => Clock(t.(id := newId))
      case User(u) => User(u.(id := newId))
      case Group(g) => Group(g.(id := newId))
      case Package(p) => Package(p.(id := newId))
      case Iface(i) => Iface(i.(id := newId))
      case Addr(a) => Addr(a.(id := newId))
    }
  }

  /** Projecting twice is projecting once. */
  lemma GetDataIdempotent(x: Comparable)
    ensures x.GetData().GetData() == x.GetData()
  {
  }

  /** The ID never takes part in a comparison. */
  lemma GetDataIgnoresID(x: Comparable, newId: string)
    ensures x.WithID(newId).GetData() == x.GetData()
  {
  }

  /** Two time records compare equal exactly when they differ at most in ID and boot time. */
  lemma TimeDataCompare(a: TimeData, b: TimeData)
    ensures a.GetData() == b.GetData() <==> a.(id := b.id, bootTime := b.bootTime) == b
  {
  }

  /** Two user records compare equal exactly when they differ at most in ID and description. */
  lemma UserDataCompare(a: UserData, b: UserData)
    ensures a.GetData() == b.GetData() <==> a.(id := b.id, description := b.description) == b
  {
  }
}
