/*
 * rtsadmin's target side (rtsadmin/ui_target.py): fabric modules hold
 * targets, a target holds target portal groups (TPGs), and a TPG holds LUNs,
 * node ACLs (each with mapped LUNs) and network portals. The shell allocates
 * TPG tags and LUN numbers by the same first-free scan as the backstores,
 * toggles TPGs on and off, and offers completions filtered from the
 * library's current objects.
 */
module RtsadminTarget {
  import opened Common
  import opened Allocation
  import opened Rtslib

  datatype Error =
    | NoAvailableTag                       // "Cannot find an available TPG Tag."
    | TagNotInteger                        // "The TPG Tag must be an integer value."
    | TagNotPositive                       // "The TPG Tag must be >0."
    | TagInUse(tag: int)                   // the library refuses a second TPG with the same tag
    | NoAvailableLun                       // "Cannot find an available LUN.", as intended
    | SelectedLunTypeError                 // "Selected LUN %d." formatted with a LUN object raises TypeError
    | LunNotInteger                        // "The LUN must be an integer value."
    | NegativeLun                          // "The LUN cannot be negative."
    | LunInUse(lun: int)                   // the library refuses a second LUN with the same number
    | NoSuchPath(path: string)             // the shell's node lookup raises for a path naming no node
    | WrongStorageObjectPath(path: string) // "Wrong storage object path."
    | NoUsableIp                           // "Cannot find a usable IP address to create the Network Portal, aborting."
    | UnknownIp(ip: string)                // "Provided IP address %s does not exist, aborting."
    | PortNotInteger                       // "The ip_port must be an integer value."
    | DriverError(reason: string)          // an exception of the library, propagated

  /** An integer parameter as `int()` sees it: omitted, not a number, or a number. */
  datatype IntArg = Omitted | Malformed | Given(value: int)

  /** What enable and disable report: the flag was switched, or it already had the wanted value. */
  datatype Toggle = Switched | AlreadySo

  /** A TPG LUN: its number and the storage object it exports, None when the link is broken. */
  datatype Lun = Lun(lun: nat, so: Option<StorageObject>)

  /** A mapped LUN of a node ACL: its number, the TPG LUN it maps (None when broken), and write protection. */
  datatype MappedLun = MappedLun(mappedLun: nat, tpgLun: Option<nat>, writeProtect: bool)

  /** A node ACL: the initiator's WWN and its mapped LUNs. */
  datatype NodeAcl = NodeAcl(nodeWwn: string, mappedLuns: seq<MappedLun>)

  /** A LUN's node name without "lun": its number as text. */
  function LunText(l: Lun): string {
    NatToString(l.lun)
  }

  /** An ACL's node name: the initiator WWN. */
  function AclWwn(a: NodeAcl): string {
    a.nodeWwn
  }

  /** A network portal. */
  datatype Portal = Portal(ipAddress: string, port: int)

  /** The default iSCSI port used when no port is given. */
  const DefaultPort: int := 3260

  /** The name a TPG node is shown under: "tpgt%d". */
  function TpgNodeName(tag: nat): (s: string)
    ensures StartsWith(s, "tpgt")
  {
    "tpgt" + NatToString(tag)
  }

  /** Dropping the first four characters of a TPG node's name gives back its tag's digits. */
  lemma TpgNodeNameTag(tag: nat)
    ensures TpgNodeName(tag)[4..] == NatToString(tag)
    ensures |TpgNodeName(tag)| > 4
  {
  }

  /** The text `str(portal.port)`. */
  function PortString(p: Portal): string {
    IntToString(p.port)
  }

  /** UIFabricModule.summary: "N Target(s)", with no health verdict. */
  function FabricSummary(targetCount: nat): (r: (string, Option<bool>))
    ensures r.1.None?
    ensures StartsWith(r.0, NatToString(targetCount) + " ")
    ensures r.0[|NatToString(targetCount)| + 1..] == if targetCount > 1 then "Targets" else "Target"
  {
    (CountSummary(targetCount, "Target", "Targets"), None)
  }

  /** The listed WWNs that no target uses yet, in list order. */
  function Available(wwns: seq<string>, existing: seq<string>): (r: seq<string>)
    ensures forall x :: x in r <==> x in wwns && x !in existing
    ensures |r| <= |wwns|
  {
    Filter(wwns, w => w !in existing)
  }

  /**
   * UIFabricModule.ui_complete_create: with an allowed-WWN list, the listed
   * WWNs that start with `text` and that no target uses yet; without a list,
   * or for another parameter, nothing.
   */
  function FabricCompleteCreate(wwnList: Option<seq<string>>, existing: seq<string>, param: string, text: string): (r: seq<string>)
    ensures param != "wwn" || wwnList.None? ==> r == []
    ensures param == "wwn" && wwnList.Some? ==> CompletesTo(r, Matching(Available(wwnList.value, existing), text))
    ensures param == "wwn" && wwnList.Some? ==>
      forall x :: x in Unfinish(r) <==> x in wwnList.value && StartsWith(x, text) && x !in existing
  {
    if param == "wwn" && wwnList.Some? then Completions(Available(wwnList.value, existing), text) else []
  }

  /** UIFabricModule.ui_complete_delete: the targets' WWNs (their node names) starting with `text`. */
  function FabricCompleteDelete(targetWwns: seq<string>, param: string, text: string): (r: seq<string>)
    ensures param != "wwn" ==> r == []
    ensures param == "wwn" ==> CompletesTo(r, Matching(targetWwns, text))
    ensures param == "wwn" ==> forall x :: x in Unfinish(r) <==> x in targetWwns && StartsWith(x, text)
  {
    CompleteParam(param, "wwn", targetWwns, text)
  }

  /**
   * UIMappedLUN.summary: "lun<n> (ro)" or "lun<n> (rw)" naming the TPG LUN,
   * read-only exactly when write protection is set; a broken link is unhealthy.
   */
  function MappedLunSummary(m: MappedLun): (r: (string, bool))
    ensures r.1 <==> m.tpgLun.Some?
    ensures m.tpgLun.None? ==> r.0 == "BROKEN LUN LINK"
    ensures m.tpgLun.Some? ==> StartsWith(r.0, "lun" + NatToString(m.tpgLun.value) + " (")
    ensures m.tpgLun.Some? ==> |r.0| == |NatToString(m.tpgLun.value)| + 8
    ensures m.tpgLun.Some? ==> (EndsWith(r.0, "(ro)") <==> m.writeProtect)
    ensures m.tpgLun.Some? ==> (EndsWith(r.0, "(rw)") <==> !m.writeProtect)
  {
    match m.tpgLun
    case None => ("BROKEN LUN LINK", false)
    case Some(n) =>
      var mode := if m.writeProtect then "ro" else "rw";
      var head := "lun" + NatToString(n) + " (";
      var msg := head + mode + ")";
      assert msg[..|head|] == head;
      assert msg[|msg| - 4..] == "(" + mode + ")";
      assert "(" + mode + ")" == if m.writeProtect then "(ro)" else "(rw)";
      assert "(ro)" != "(rw)" by { assert "(ro)"[2] != "(rw)"[2]; }
      (msg, true)
  }

  /** UINodeACL.summary: "N Mapped LUN(s)". */
  function NodeAclSummary(acl: NodeAcl): (r: (string, Option<bool>))
    ensures r.1.None?
    ensures StartsWith(r.0, NatToString(|acl.mappedLuns|) + " ")
    ensures r.0[|NatToString(|acl.mappedLuns|)| + 1..] == if |acl.mappedLuns| > 1 then "Mapped LUNs" else "Mapped LUN"
  {
    (CountSummary(|acl.mappedLuns|, "Mapped LUN", "Mapped LUNs"), None)
  }

  /**
   * UILUN.summary: "<backstore>/<object> (<path>)", where the backstore is
   * shown as plugin and index and the path is "ramdisk" for rd* plugins; a
   * broken storage link is unhealthy.
   */
  function LunSummary(l: Lun): (r: (string, bool))
    ensures r.1 <==> l.so.Some?
    ensures l.so.None? ==> r.0 == "BROKEN STORAGE LINK"
    ensures l.so.Some? ==>
      var so := l.so.value;
      && StartsWith(r.0, HbaName(so.hba) + "/" + so.name + " (")
      && EndsWith(r.0, " (" + DisplayPath(so) + ")")
      && |r.0| == |HbaName(so.hba)| + 1 + |so.name| + 2 + |DisplayPath(so)| + 1
      && (IsRamdisk(so.hba.plugin) ==> EndsWith(r.0, "(ramdisk)"))
  {
    match l.so
    case None => ("BROKEN STORAGE LINK", false)
    case Some(so) =>
      var path := if IsRamdisk(so.hba.plugin) then "ramdisk" else so.udevPath;
      var head := HbaName(so.hba) + "/" + so.name;
      var msg := head + " (" + path + ")";
      assert msg[..|head| + 2] == head + " (";
      assert msg[|msg| - |" (" + path + ")"|..] == " (" + path + ")";
      assert IsRamdisk(so.hba.plugin) ==> msg[|msg| - |"(ramdisk)"|..] == "(ramdisk)";
      (msg, true)
  }

  /**
   * What the shell's node lookup (`get_node`) finds at a storage-object
   * path: no node at all, a node that is not a storage object (a backstore,
   * say), or a storage object.
   */
  datatype NodeLookup = NoSuchNode | NotStorageObject | StorageObjectNode(so: StorageObject)

  /**
   * What `UILUNs.ui_command_create` does with the looked-up path. A path
   * naming no node makes the lookup raise, which nothing catches, so the
   * command is aborted. As written, a node without a storage object is
   * logged as a wrong path and the command goes on: the path text itself is
   * handed to the library's LUN constructor in place of a storage object.
   */
  datatype LunRequest = Aborted | ForObject(so: StorageObject) | ForPath(path: string)

  function LunRequestAsWritten(path: string, lookup: NodeLookup): (q: LunRequest)
    ensures lookup.NoSuchNode? <==> q.Aborted?
    ensures lookup.NotStorageObject? <==> q == ForPath(path)
    ensures lookup.StorageObjectNode? ==> q == ForObject(lookup.so)
  {
    match lookup
    case NoSuchNode => Aborted
    case NotStorageObject => ForPath(path)
    case StorageObjectNode(so) => ForObject(so)
  }

  /** The concrete input: the path of a backstore, not of a storage object, still reaches the library. */
  lemma UnresolvedPathReachesLibrary()
    ensures LunRequestAsWritten("/backstores/iblock0", NotStorageObject) == ForPath("/backstores/iblock0")
  {
  }

  /** A TPG and the objects under it. */
  class Tpg {
    const tag: nat
    /** The nexus, for fabric modules with the 'nexus' feature. */
    const nexus: Option<string>
    var enabled: bool
    var luns: seq<Lun>
    var acls: seq<NodeAcl>
    var portals: seq<Portal>

    /** LUN numbers are unique within the TPG. */
    ghost predicate Valid()
      reads this
    {
      forall i, j :: 0 <= i < j < |luns| ==> luns[i].lun != luns[j].lun
    }

    function LunNumbers(): (s: set<int>)
      reads this
      ensures forall n :: n in s <==> exists l :: l in luns && l.lun == n
    {
      set l | l in luns :: l.lun
    }

    /** A new TPG, as the library creates it: disabled and empty. */
    constructor (tag: nat, nexus: Option<string>)
      ensures this.tag == tag && this.nexus == nexus
      ensures !enabled && luns == [] && acls == [] && portals == []
      ensures Valid()
    {
      this.tag := tag;
      this.nexus := nexus;
      enabled := false;
      luns, acls, portals := [], [], [];
    }

    /** UITPG.summary: the nexus when there is one, else "enabled" or "disabled"; always healthy. */
    function Summary(): (r: (string, bool))
      reads this
      ensures r.1
      ensures nexus.Some? ==> r.0 == nexus.value
      ensures nexus.None? ==> (r.0 == "enabled" <==> enabled) && (r.0 == "disabled" <==> !enabled)
    {
      if nexus.Some? then (nexus.value, true)
      else if enabled then ("enabled", true)
      else ("disabled", true)
    }

    /** ui_command_enable: the TPG ends enabled; an enabled TPG is left alone and says so. */
    method Enable() returns (r: Toggle)
      modifies this
      ensures enabled
      ensures r == AlreadySo <==> old(enabled)
      ensures luns == old(luns) && acls == old(acls) && portals == old(portals)
    {
      if enabled {
        r := AlreadySo;
      } else {
        enabled := true;
        r := Switched;
      }
    }

    /** ui_command_disable: the TPG ends disabled; a disabled TPG is left alone and says so. */
    method Disable() returns (r: Toggle)
      modifies this
      ensures !enabled
      ensures r == AlreadySo <==> !old(enabled)
      ensures luns == old(luns) && acls == old(acls) && portals == old(portals)
    {
      if enabled {
        enabled := false;
        r := Switched;
      } else {
        r := AlreadySo;
      }
    }

    /** UILUNs.summary: "N LUN(s)". */
    function LunsSummary(): (r: (string, Option<bool>))
      reads this
      ensures r.1.None?
      ensures StartsWith(r.0, NatToString(|luns|) + " ")
      ensures r.0[|NatToString(|luns|)| + 1..] == if |luns| > 1 then "LUNs" else "LUN"
    {
      (CountSummary(|luns|, "LUN", "LUNs"), None)
    }

    /** UINodeACLs.summary: "N ACL(s)". */
    function AclsSummary(): (r: (string, Option<bool>))
      reads this
      ensures r.1.None?
      ensures StartsWith(r.0, NatToString(|acls|) + " ")
      ensures r.0[|NatToString(|acls|)| + 1..] == if |acls| > 1 then "ACLs" else "ACL"
    {
      (CountSummary(|acls|, "ACL", "ACLs"), None)
    }

    /** UIPortals.summary: "N Portal(s)". */
    function PortalsSummary(): (r: (string, Option<bool>))
      reads this
      ensures r.1.None?
      ensures StartsWith(r.0, NatToString(|portals|) + " ")
      ensures r.0[|NatToString(|portals|)| + 1..] == if |portals| > 1 then "Portals" else "Portal"
    {
      (CountSummary(|portals|, "Portal", "Portals"), None)
    }

    /** The LUN number a create would use, or the error that stops it before the library is asked. */
    function ChooseLun(lunArg: IntArg): (r: Result<nat, Error>)
      reads this
      ensures lunArg.Omitted? ==>
        (r.Ok? <==> LowestFree(LunNumbers(), 0, IndexBound).Some?)
        && (r.Ok? ==> IsLowestFree(LunNumbers(), 0, IndexBound, r.value))
        && (r.Err? ==> r.error == NoAvailableLun && AllUsed(LunNumbers(), 0, IndexBound))
      ensures lunArg.Malformed? ==> r == Err(LunNotInteger)
      ensures lunArg.Given? ==> (r.Ok? <==> lunArg.value >= 0) && (r.Ok? ==> r.value == lunArg.value)
      ensures lunArg.Given? && lunArg.value < 0 ==> r == Err(NegativeLun)
    {
      LowestFreeCorrect(LunNumbers(), 0, IndexBound);
      match lunArg
      case Omitted =>
        (match LowestFree(LunNumbers(), 0, IndexBound)
         case None => Err(NoAvailableLun)
         case Some(n) => Ok(n))
      case Malformed => Err(LunNotInteger)
      case Given(v) => if v < 0 then Err(NegativeLun) else Ok(v)
    }

    /**
     * The LUN number as the source picks it. In Python 2 the comprehension
     * that lists the used numbers leaves its loop variable `lun` bound to the
     * TPG's last LUN, so after a scan that finds nothing `lun` is not None:
     * the "Cannot find an available LUN." branch is skipped and formatting
     * that LUN with "%d" raises.
     */
    function ChooseLunAsWritten(lunArg: IntArg): (r: Result<nat, Error>)
      reads this
      ensures !lunArg.Omitted? ==> r == ChooseLun(lunArg)
      ensures lunArg.Omitted? && r.Ok? ==> IsLowestFree(LunNumbers(), 0, IndexBound, r.value)
    {
      LowestFreeCorrect(LunNumbers(), 0, IndexBound);
      match lunArg
      case Omitted =>
        (match LowestFree(LunNumbers(), 0, IndexBound)
         case None => Err(if luns == [] then NoAvailableLun else SelectedLunTypeError)
         case Some(n) => Ok(n))
      case _ => ChooseLun(lunArg)
    }

    /**
     * With every number in [0, 1048576) taken and the LUN omitted, the source
     * raises where the corrected choice reports that no LUN is available;
     * otherwise the two agree.
     */
    lemma ExhaustedLunScanRaises(lunArg: IntArg)
      ensures lunArg.Omitted? && AllUsed(LunNumbers(), 0, IndexBound) ==>
        ChooseLunAsWritten(lunArg) == Err(SelectedLunTypeError) && ChooseLun(lunArg) == Err(NoAvailableLun)
      ensures !(lunArg.Omitted? && AllUsed(LunNumbers(), 0, IndexBound)) ==>
        ChooseLunAsWritten(lunArg) == ChooseLun(lunArg)
    {
      LowestFreeCorrect(LunNumbers(), 0, IndexBound);
      if AllUsed(LunNumbers(), 0, IndexBound) {
        assert 0 in LunNumbers();
      }
    }

    /**
     * UILUNs.ui_command_create, with the storage-object path resolved as
     * intended: the LUN number is picked (the lowest free one when omitted)
     * or checked, a path naming no node or a node that is not a storage
     * object stops the command, and the library
     * creates the LUN unless the number is taken or it raises (`failure`).
     */
    method CreateLun(path: string, lunArg: IntArg, lookup: NodeLookup, failure: Option<string>)
      returns (r: Result<Lun, Error>)
      requires Valid()
      modifies this
      ensures Valid()
      ensures enabled == old(enabled) && acls == old(acls) && portals == old(portals)
      ensures var n := old(ChooseLun(lunArg));
        && (n.Err? ==> r == Err(n.error))
        && (n.Ok? && lookup.NoSuchNode? ==> r == Err(NoSuchPath(path)))
        && (n.Ok? && lookup.NotStorageObject? ==> r == Err(WrongStorageObjectPath(path)))
        && (n.Ok? && lookup.StorageObjectNode? && n.value in old(LunNumbers()) ==> r == Err(LunInUse(n.value)))
        && (n.Ok? && lookup.StorageObjectNode? && n.value !in old(LunNumbers()) && failure.Some? ==>
              r == Err(DriverError(failure.value)))
        && (r.Err? ==> luns == old(luns))
        && (n.Ok? && lookup.StorageObjectNode? && n.value !in old(LunNumbers()) && failure.None? ==>
              r == Ok(Lun(n.value, Some(lookup.so))) && luns == old(luns) + [Lun(n.value, Some(lookup.so))])
    {
      var lun: nat;
      match lunArg {
        case Omitted =>
          var found := FirstFree(LunNumbers(), 0, IndexBound);
          if found.None? {
            return Err(NoAvailableLun);
          }
          lun := found.value;
        case Malformed =>
          return Err(LunNotInteger);
        case Given(v) =>
          if v < 0 {
            return Err(NegativeLun);
          }
          lun := v;
      }
      match lookup {
        case NoSuchNode =>
          return Err(NoSuchPath(path));
        case NotStorageObject =>
          return Err(WrongStorageObjectPath(path));
        case StorageObjectNode(_) =>
      }
      if lun in LunNumbers() {
        return Err(LunInUse(lun));
      }
      if failure.Some? {
        return Err(DriverError(failure.value));
      }
      luns := luns + [Lun(lun, Some(lookup.so))];
      r := Ok(Lun(lun, Some(lookup.so)));
    }

    /** UILUNs.ui_complete_delete: the LUN numbers, as text, starting with `text`. */
    function CompleteLunDelete(param: string, text: string): (r: seq<string>)
      reads this
      ensures param != "lun" ==> r == []
      ensures param == "lun" ==> CompletesTo(r, Matching(Map(luns, LunText), text))
      ensures param == "lun" ==>
        forall x :: x in Unfinish(r) <==> StartsWith(x, text) && exists l :: l in luns && NatToString(l.lun) == x
    {
      forall x {
        MapMembership(luns, LunText, x);
      }
      CompleteParam(param, "lun", Map(luns, LunText), text)
    }

    /** UINodeACLs.ui_complete_delete: the initiator WWNs of the ACLs starting with `text`. */
    function CompleteAclDelete(param: string, text: string): (r: seq<string>)
      reads this
      ensures param != "wwn" ==> r == []
      ensures param == "wwn" ==> CompletesTo(r, Matching(Map(acls, AclWwn), text))
      ensures param == "wwn" ==>
        forall x :: x in Unfinish(r) <==> StartsWith(x, text) && exists a :: a in acls && a.nodeWwn == x
    {
      forall x {
        MapMembership(acls, AclWwn, x);
      }
      CompleteParam(param, "wwn", Map(acls, AclWwn), text)
    }

    /**
     * UIPortals.ui_command_create: the port defaults to 3260; an omitted
     * address becomes the host's main address (`mainIp`, empty when there
     * is none), a given one must be among the interface addresses; the port
     * text must be an integer; then the library creates the portal unless it
     * raises (`failure`).
     */
    method CreatePortal(ipArg: Option<string>, portArg: IntArg, mainIp: string, ethIps: seq<string>, failure: Option<string>)
      returns (r: Result<Portal, Error>)
      modifies this
      ensures enabled == old(enabled) && luns == old(luns) && acls == old(acls)
      ensures ipArg.None? && mainIp == "" ==> r == Err(NoUsableIp)
      ensures ipArg.Some? && ipArg.value !in ethIps ==> r == Err(UnknownIp(ipArg.value))
      ensures var ipOk := if ipArg.None? then mainIp != "" else ipArg.value in ethIps;
        && (ipOk && portArg.Malformed? ==> r == Err(PortNotInteger))
        && (ipOk && !portArg.Malformed? && failure.Some? ==> r == Err(DriverError(failure.value)))
        && (r.Err? ==> portals == old(portals))
        && (ipOk && !portArg.Malformed? && failure.None? ==>
              var ip := if ipArg.None? then mainIp else ipArg.value;
              var port := if portArg.Given? then portArg.value else DefaultPort;
              r == Ok(Portal(ip, port)) && portals == old(portals) + [Portal(ip, port)])
    {
      var ip: string;
      if ipArg.None? {
        if mainIp == "" {
          return Err(NoUsableIp);
        }
        ip := mainIp;
      } else if ipArg.value !in ethIps {
        return Err(UnknownIp(ipArg.value));
      } else {
        ip := ipArg.value;
      }
      var port: int;
      match portArg {
        case Omitted => port := DefaultPort;
        case Malformed => return Err(PortNotInteger);
        case Given(v) => port := v;
      }
      if failure.Some? {
        return Err(DriverError(failure.value));
      }
      portals := portals + [Portal(ip, port)];
      r := Ok(Portal(ip, port));
    }

    /**
     * The matches of UIPortals.ui_complete_delete: from the portals gathered
     * by address (see GatherPortals), for "ip_address", the addresses (only
     * those with the typed port when one is already given); for "ip_port",
     * the ports of the typed address (none for an unknown address) or else
     * all ports; each filtered by `text`.
     */
    method PortalDeleteMatches(param: string, portParam: Option<string>, addressParam: Option<string>, text: string)
      returns (completions: seq<string>)
      ensures param != "ip_address" && param != "ip_port" ==> completions == []
      ensures param == "ip_address" && portParam.Some? ==>
        forall x :: x in completions <==> StartsWith(x, text) && HasPortAt(portals, x, portParam.value)
      ensures param == "ip_address" && portParam.None? ==>
        forall x :: x in completions <==> StartsWith(x, text) && HasAddress(portals, x)
      ensures param == "ip_address" ==> Distinct(completions)
      ensures param == "ip_port" && addressParam.Some? ==>
        forall x :: x in completions <==> StartsWith(x, text) && HasPortAt(portals, addressParam.value, x)
      ensures param == "ip_port" && addressParam.None? ==>
        forall x :: x in completions <==> StartsWith(x, text) && HasPort(portals, x)
      ensures param == "ip_port" && addressParam.None? ==> Distinct(completions)
    {
      var addresses, ports, allPorts := GatherPortals(portals);
      completions := [];
      if param == "ip_address" {
        var keep: string -> bool;
        if portParam.Some? {
          keep := a => a in ports && portParam.value in ports[a] && StartsWith(a, text);
        } else {
          keep := a => StartsWith(a, text);
        }
        completions := Filter(addresses, keep);
        FilterKeepsDistinct(addresses, keep);
      } else if param == "ip_port" {
        if addressParam.Some? {
          if addressParam.value in ports {
            completions := Filter(ports[addressParam.value], x => StartsWith(x, text));
          } else {
            forall x ensures !HasPortAt(portals, addressParam.value, x) {
              PortImpliesAddress(portals, addressParam.value, x);
            }
          }
        } else {
          completions := Filter(allPorts, x => StartsWith(x, text));
          FilterKeepsDistinct(allPorts, x => StartsWith(x, text));
        }
      }
    }

    /** UIPortals.ui_complete_delete: the matches, with the single-match trailing space. */
    method CompletePortalDelete(param: string, portParam: Option<string>, addressParam: Option<string>, text: string)
      returns (r: seq<string>)
      ensures param != "ip_address" && param != "ip_port" ==> r == []
      ensures param == "ip_address" && portParam.Some? ==>
        forall x :: x in Unfinish(r) <==> StartsWith(x, text) && HasPortAt(portals, x, portParam.value)
      ensures param == "ip_address" && portParam.None? ==>
        forall x :: x in Unfinish(r) <==> StartsWith(x, text) && HasAddress(portals, x)
      ensures param == "ip_address" ==> Distinct(Unfinish(r))
      ensures param == "ip_port" && addressParam.Some? ==>
        forall x :: x in Unfinish(r) <==> StartsWith(x, text) && HasPortAt(portals, addressParam.value, x)
      ensures param == "ip_port" && addressParam.None? ==>
        forall x :: x in Unfinish(r) <==> StartsWith(x, text) && HasPort(portals, x)
      ensures param == "ip_port" && addressParam.None? ==> Distinct(Unfinish(r))
      ensures |r| == 1 ==> EndsWith(r[0], " ")
    {
      var completions := PortalDeleteMatches(param, portParam, addressParam, text);
      FinishRoundTrip(completions);
      FinishSingleEndsWithSpace(completions);
      r := Finish(completions);
    }
  }

  /** Some portal listens on address `a`. */
  ghost predicate HasAddress(ps: seq<Portal>, a: string) {
    exists p :: p in ps && p.ipAddress == a
  }

  /** Some portal listens on address `a` at the port written `x`. */
  ghost predicate HasPortAt(ps: seq<Portal>, a: string, x: string) {
    exists p :: p in ps && p.ipAddress == a && PortString(p) == x
  }

  /** Some portal listens at the port written `x`. */
  ghost predicate HasPort(ps: seq<Portal>, x: string) {
    exists p :: p in ps && PortString(p) == x
  }

  lemma PortImpliesAddress(ps: seq<Portal>, a: string, x: string)
    ensures HasPortAt(ps, a, x) ==> HasAddress(ps, a)
  {
  }

  lemma PortalsExtended(ps: seq<Portal>, q: Portal)
    ensures forall a :: HasAddress(ps + [q], a) <==> HasAddress(ps, a) || q.ipAddress == a
    ensures forall a, x :: HasPortAt(ps + [q], a, x) <==> HasPortAt(ps, a, x) || (q.ipAddress == a && PortString(q) == x)
    ensures forall x :: HasPort(ps + [q], x) <==> HasPort(ps, x) || PortString(q) == x
  {
    assert forall p :: p in ps + [q] <==> p in ps || p == q;
  }

  /**
   * The pass of UIPortals.ui_complete_delete over the portals: the distinct
   * addresses in order of first appearance (the keys of its dict), the ports
   * of each address as text, and the distinct ports (its set).
   */
  method GatherPortals(portals: seq<Portal>) returns (addresses: seq<string>, ports: map<string, seq<string>>, allPorts: seq<string>)
    ensures Distinct(addresses) && Distinct(allPorts)
    ensures forall a :: a in addresses <==> a in ports
    ensures forall a :: a in addresses <==> HasAddress(portals, a)
    ensures forall a, x :: a in ports ==> (x in ports[a] <==> HasPortAt(portals, a, x))
    ensures forall x :: x in allPorts <==> HasPort(portals, x)
  {
    addresses, ports, allPorts := [], map[], [];
    var i := 0;
    while i < |portals|
      invariant 0 <= i <= |portals|
      invariant Distinct(addresses) && Distinct(allPorts)
      invariant forall a :: a in addresses <==> a in ports
      invariant forall a :: a in addresses <==> HasAddress(portals[..i], a)
      invariant forall a, x :: a in ports ==> (x in ports[a] <==> HasPortAt(portals[..i], a, x))
      invariant forall x :: x in allPorts <==> HasPort(portals[..i], x)
    {
      var portal := portals[i];
      PortalsExtended(portals[..i], portal);
      assert portals[..i + 1] == portals[..i] + [portal];
      if PortString(portal) !in allPorts {
        allPorts := allPorts + [PortString(portal)];
      }
      if portal.ipAddress !in ports {
        addresses := addresses + [portal.ipAddress];
        ports := ports[portal.ipAddress := []];
      }
      ports := ports[portal.ipAddress := ports[portal.ipAddress] + [PortString(portal)]];
      i := i + 1;
    }
    assert portals[..i] == portals;
  }

  /** A sequence without repeated elements (the keys of a dict, the members of a set). */
  ghost predicate Distinct<T>(s: seq<T>) {
    forall i, j :: 0 <= i < j < |s| ==> s[i] != s[j]
  }

  lemma {:induction false} FilterKeepsDistinct<T(!new)>(s: seq<T>, keep: T -> bool)
    requires Distinct(s)
    ensures Distinct(Filter(s, keep))
  {
    if s != [] {
      FilterKeepsDistinct(s[1..], keep);
      var head := if keep(s[0]) then [s[0]] else [];
      var rest := Filter(s[1..], keep);
      assert s[0] !in s[1..];
      assert s[0] !in rest;
      assert Filter(s, keep) == head + rest;
    }
  }

  /** A target with several TPGs (UIMultiTPGTarget). */
  class Target {
    const wwn: string
    var tpgs: seq<Tpg>

    /** TPG tags are unique within the target. */
    ghost predicate Valid()
      reads this
    {
      forall i, j :: 0 <= i < j < |tpgs| ==> tpgs[i].tag != tpgs[j].tag
    }

    function Tags(): (s: set<int>)
      reads this
      ensures forall t :: t in s <==> exists g :: g in tpgs && g.tag == t
    {
      set g | g in tpgs :: g.tag
    }

    /**
     * summary: "INVALID WWN" and unhealthy when the fabric module rejects
     * the WWN (`wwnValid`), else "N TPG(s)" with no health verdict.
     */
    function Summary(wwnValid: bool): (r: (string, Option<bool>))
      reads this
      ensures !wwnValid ==> r == ("INVALID WWN", Some(false))
      ensures wwnValid ==> r.1.None? && StartsWith(r.0, NatToString(|tpgs|) + " ")
      ensures wwnValid ==> r.0[|NatToString(|tpgs|)| + 1..] == if |tpgs| > 1 then "TPGs" else "TPG"
    {
      if !wwnValid then ("INVALID WWN", Some(false))
      else (CountSummary(|tpgs|, "TPG", "TPGs"), None)
    }

    /** The tag a create would use, or the error that stops it before the library is asked. */
    function ChooseTag(tagArg: IntArg): (r: Result<nat, Error>)
      reads this
      ensures tagArg.Omitted? ==>
        (r.Ok? <==> LowestFree(Tags(), 1, IndexBound).Some?)
        && (r.Ok? ==> IsLowestFree(Tags(), 1, IndexBound, r.value) && r.value >= 1)
        && (r.Err? ==> r.error == NoAvailableTag && AllUsed(Tags(), 1, IndexBound))
      ensures tagArg.Malformed? ==> r == Err(TagNotInteger)
      ensures tagArg.Given? ==> (r.Ok? <==> tagArg.value >= 1) && (r.Ok? ==> r.value == tagArg.value)
      ensures tagArg.Given? && tagArg.value < 1 ==> r == Err(TagNotPositive)
    {
      LowestFreeCorrect(Tags(), 1, IndexBound);
      match tagArg
      case Omitted =>
        (match LowestFree(Tags(), 1, IndexBound)
         case None => Err(NoAvailableTag)
         case Some(t) => Ok(t))
      case Malformed => Err(TagNotInteger)
      case Given(v) => if v < 1 then Err(TagNotPositive) else Ok(v)
    }

    /**
     * ui_command_create: pick the smallest free tag from 1 when none is
     * given, or check the given one; the library creates the TPG unless the
     * tag is taken or it raises (`failure`); it is enabled at once when the
     * auto_enable_tpgt preference is set.
     */
    method CreateTpg(tagArg: IntArg, autoEnable: bool, nexus: Option<string>, failure: Option<string>)
      returns (r: Result<Tpg, Error>)
      requires Valid()
      modifies this
      ensures Valid()
      ensures var t := old(ChooseTag(tagArg));
        && (t.Err? ==> r == Err(t.error))
        && (t.Ok? && t.value in old(Tags()) ==> r == Err(TagInUse(t.value)))
        && (t.Ok? && t.value !in old(Tags()) && failure.Some? ==> r == Err(DriverError(failure.value)))
        && (r.Err? ==> tpgs == old(tpgs))
        && (t.Ok? && t.value !in old(Tags()) && failure.None? ==>
              && r.Ok? && fresh(r.value)
              && r.value.tag == t.value && r.value.nexus == nexus
              && r.value.enabled == autoEnable
              && r.value.luns == [] && r.value.acls == [] && r.value.portals == []
              && tpgs == old(tpgs) + [r.value])
    {
      var tag: nat;
      match tagArg {
        case Omitted =>
          var found := FirstFree(Tags(), 1, IndexBound);
          if found.None? {
            return Err(NoAvailableTag);
          }
          tag := found.value;
        case Malformed =>
          return Err(TagNotInteger);
        case Given(v) =>
          if v < 1 {
            return Err(TagNotPositive);
          }
          tag := v;
      }
      if tag in Tags() {
        return Err(TagInUse(tag));
      }
      if failure.Some? {
        return Err(DriverError(failure.value));
      }
      var tpg := new Tpg(tag, nexus);
      if autoEnable {
        tpg.enabled := true;
      }
      tpgs := tpgs + [tpg];
      r := Ok(tpg);
    }

    /** ui_complete_delete: the TPG node names with "tpgt" cut off, i.e. the tags' digits, starting with `text`. */
    function CompleteTpgDelete(param: string, text: string): (r: seq<string>)
      reads this
      ensures param != "tag" ==> r == []
      ensures param == "tag" ==> CompletesTo(r, Matching(Map(tpgs, TagText), text))
      ensures param == "tag" ==>
        forall x :: x in Unfinish(r) <==> StartsWith(x, text) && exists g :: g in tpgs && NatToString(g.tag) == x
    {
      forall x {
        MapMembership(tpgs, TagText, x);
      }
      CompleteParam(param, "tag", Map(tpgs, TagText), text)
    }
  }

  /** A TPG's node name with "tpgt" cut off: its tag as text. */
  function TagText(g: Tpg): (s: string)
    ensures s == NatToString(g.tag)
  {
    TpgNodeNameTag(g.tag);
    TpgNodeName(g.tag)[4..]
  }

  /** UITarget.summary: a single-TPG target shows its TPG's summary unless its WWN is invalid. */
  function SingleTpgTargetSummary(wwnValid: bool, tpg: Tpg): (r: (string, bool))
    reads tpg
    ensures !wwnValid ==> r == ("INVALID WWN", false)
    ensures wwnValid ==> r.1 && r == tpg.Summary()
  {
    if !wwnValid then ("INVALID WWN", false) else tpg.Summary()
  }

  /** A backstore node as UILUNs.ui_complete_create sees it: its name and its storage-object nodes' names. */
  datatype BackstoreListing = BackstoreListing(name: string, objects: seq<string>)

  /** The path of a storage-object node under /backstores. */
  function ObjectPath(backstore: string, objectName: string): string {
    "/backstores/" + backstore + "/" + objectName
  }

  /** The paths the nested loop collects, backstore after backstore. */
  function ObjectPaths(bs: seq<BackstoreListing>): (r: seq<string>)
  {
    if bs == [] then []
    else ObjectPaths(bs[..|bs| - 1]) + Map(bs[|bs| - 1].objects, o => ObjectPath(bs[|bs| - 1].name, o))
  }

  /** A path is collected exactly when some backstore lists an object under it. */
  lemma {:induction false} ObjectPathsMembership(bs: seq<BackstoreListing>, x: string)
    ensures x in ObjectPaths(bs) <==> exists b, o :: b in bs && o in b.objects && x == ObjectPath(b.name, o)
  {
    if bs != [] {
      var init := bs[..|bs| - 1];
      var last := bs[|bs| - 1];
      ObjectPathsMembership(init, x);
      MapMembership(last.objects, o => ObjectPath(last.name, o), x);
      assert forall b :: b in bs <==> b in init || b == last by {
        assert bs == init + [last];
      }
    }
  }

  /**
   * UILUNs.ui_complete_create: walk every backstore node and every storage
   * object node under it, collect their paths, and offer those starting with
   * `text` when completing the storage_object parameter.
   */
  method CompleteLunCreate(backstores: seq<BackstoreListing>, param: string, text: string) returns (r: seq<string>)
    ensures param != "storage_object" ==> r == []
    ensures param == "storage_object" ==> r == Completions(ObjectPaths(backstores), text)
    ensures param == "storage_object" ==> CompletesTo(r, Matching(ObjectPaths(backstores), text))
    ensures param == "storage_object" ==>
      forall x :: x in Unfinish(r) <==>
        StartsWith(x, text) && exists b, o :: b in backstores && o in b.objects && x == ObjectPath(b.name, o)
  {
    var paths: seq<string> := [];
    var i := 0;
    while i < |backstores|
      invariant 0 <= i <= |backstores|
      invariant paths == ObjectPaths(backstores[..i])
    {
      var b := backstores[i];
      ghost var before := paths;
      var j := 0;
      while j < |b.objects|
        invariant 0 <= j <= |b.objects|
        invariant paths == before + Map(b.objects[..j], o => ObjectPath(b.name, o))
      {
        assert b.objects[..j + 1] == b.objects[..j] + [b.objects[j]];
        MapAppend(b.objects[..j], b.objects[j], o => ObjectPath(b.name, o));
        paths := paths + [ObjectPath(b.name, b.objects[j])];
        j := j + 1;
      }
      assert b.objects[..j] == b.objects;
      assert backstores[..i + 1][..i] == backstores[..i];
      i := i + 1;
    }
    assert backstores[..i] == backstores;
    if param == "storage_object" {
      r := Completions(paths, text);
      forall x {
        ObjectPathsMembership(backstores, x);
      }
    } else {
      r := [];
    }
  }

  lemma {:induction false} MapAppend<A, B>(s: seq<A>, x: A, f: A -> B)
    ensures Map(s + [x], f) == Map(s, f) + [f(x)]
  {
    if s != [] {
      assert (s + [x])[1..] == s[1..] + [x];
      MapAppend(s[1..], x, f);
    }
  }

  /** UIPortals.ui_complete_create: the interface addresses starting with `text`. */
  function CompletePortalCreate(ethIps: seq<string>, param: string, text: string): (r: seq<string>)
    ensures param != "ip_address" ==> r == []
    ensures param == "ip_address" ==> CompletesTo(r, Matching(ethIps, text))
    ensures param == "ip_address" ==> forall x :: x in Unfinish(r) <==> x in ethIps && StartsWith(x, text)
  {
    CompleteParam(param, "ip_address", ethIps, text)
  }
}
