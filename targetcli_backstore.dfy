/*
 * targetcli's backstores tree (targetcli/ui_backstore.py): one node per
 * plugin ("pscsi", "rd_mcp", "fileio", "block"), whose children are the
 * storage objects of that plugin. Every storage object gets a backstore (HBA)
 * of its own: creating one allocates the lowest free index of the plugin,
 * creates the HBA, then the storage object, and deletes the HBA again if the
 * storage object cannot be created; deleting one deletes its HBA once the HBA
 * holds no storage object any more.
 */
module TargetcliBackstore {
  import opened Common
  import opened Allocation
  import opened Rtslib

  /** The plugin nodes `UIBackstores.refresh` creates, in order. */
  const PluginNodes: seq<string> := ["pscsi", "rd_mcp", "fileio", "block"]

  /** A storage-object node: the name it is listed under and the library object it shows. */
  datatype ChildNode = ChildNode(name: string, so: StorageObject)

  datatype Error =
    | NameInUse(plugin: string, name: string)  // "Storage object %s/%s already exist."
    | NoAvailableIndex                         // "Cannot find an available backstore index."
    | DriverError(reason: string)              // the library's exception, re-raised
    | FileioArguments                          // "For fileio, you must either specify both a file and a size, or just a device path."
    | NoStorageObject(name: string)            // "No storage object named %s."

  /** `[child.name for child in children]` */
  function Names(cs: seq<ChildNode>): (r: seq<string>)
    ensures |r| == |cs|
    ensures forall i :: 0 <= i < |cs| ==> r[i] == cs[i].name
  {
    if cs == [] then [] else [cs[0].name] + Names(cs[1..])
  }

  lemma NamesMembership(cs: seq<ChildNode>, x: string)
    ensures x in Names(cs) <==> exists c :: c in cs && c.name == x
  {
    if x in Names(cs) {
      var i :| 0 <= i < |cs| && Names(cs)[i] == x;
      assert cs[i] in cs;
    }
    if c :| c in cs && c.name == x {
      var i :| 0 <= i < |cs| && cs[i] == c;
      assert Names(cs)[i] == x;
    }
  }

  /** The messages of `UIStorageObject.summary` that flag a legacy configuration. */
  function LegacyMarkers(nameDiffers: bool, objectsOnHba: nat): (r: seq<string>)
    ensures "ADDED SUFFIX" in r <==> nameDiffers
    ensures "SHARED HBA" in r <==> objectsOnHba > 1
    ensures |r| <= 2 && (nameDiffers ==> r[0] == "ADDED SUFFIX")
  {
    (if nameDiffers then ["ADDED SUFFIX"] else []) + (if objectsOnHba > 1 then ["SHARED HBA"] else [])
  }

  /** The problems a storage-object node reports: a broken link first, then the legacy markers. */
  function Problems(broken: bool, markers: seq<string>): (r: seq<string>)
    ensures r == [] <==> !broken && markers == []
    ensures broken ==> r[0] == "BROKEN STORAGE LINK"
  {
    (if broken then ["BROKEN STORAGE LINK"] else []) + (if markers != [] then ["LEGACY: " + Join(markers, ", ")] else [])
  }

  /**
   * UIStorageObject.summary: the display path and status when the object is
   * healthy, that is when it has a path, is listed under its own name and has
   * its HBA to itself; otherwise the comma-joined problems, followed by
   * "(path status)" when there is a path.
   */
  method StorageObjectSummary(child: ChildNode, driver: Driver) returns (msg: string, healthy: bool)
    ensures var path := DisplayPath(child.so);
            healthy <==> path != "" && child.name == child.so.name && |driver.ObjectsOn(child.so.hba)| <= 1
    ensures healthy ==> msg == DisplayPath(child.so) + " " + child.so.status
    ensures !healthy ==>
      var path := DisplayPath(child.so);
      var problems := Problems(path == "", LegacyMarkers(child.so.name != child.name, |driver.ObjectsOn(child.so.hba)|));
      msg == Join(problems, ", ") + (if path == "" then "" else " (" + path + " " + child.so.status + ")")
  {
    var so := child.so;
    var errors: seq<string> := [];
    var path := if IsRamdisk(so.hba.plugin) then "ramdisk" else so.udevPath;
    if path == "" {
      errors := errors + ["BROKEN STORAGE LINK"];
    }
    var legacy: seq<string> := [];
    if so.name != child.name {
      legacy := legacy + ["ADDED SUFFIX"];
    }
    if |driver.ObjectsOn(so.hba)| > 1 {
      legacy := legacy + ["SHARED HBA"];
    }
    assert legacy == LegacyMarkers(so.name != child.name, |driver.ObjectsOn(so.hba)|);
    if legacy != [] {
      errors := errors + ["LEGACY: " + Join(legacy, ", ")];
    }
    assert errors == Problems(path == "", legacy);
    if errors != [] {
      msg := Join(errors, ", ");
      if path != "" {
        msg := msg + " (" + path + " " + so.status + ")";
      }
      healthy := false;
    } else {
      msg, healthy := path + " " + so.status, true;
    }
  }

  /**
   * What an unhealthy summary looks like: a broken link is announced first,
   * and whenever there is a path the message ends with "(path status)".
   */
  lemma UnhealthySummaryShape(path: string, status: string, markers: seq<string>)
    requires path == "" || markers != []
    ensures var msg := Join(Problems(path == "", markers), ", ") + (if path == "" then "" else " (" + path + " " + status + ")");
            && (path == "" ==> StartsWith(msg, "BROKEN STORAGE LINK"))
            && (path != "" ==> EndsWith(msg, " (" + path + " " + status + ")") && StartsWith(msg, "LEGACY: "))
  {
    var problems := Problems(path == "", markers);
    JoinStartsWithFirst(problems, ", ");
    var tail := if path == "" then "" else " (" + path + " " + status + ")";
    var msg := Join(problems, ", ") + tail;
    assert msg[..|Join(problems, ", ")|] == Join(problems, ", ");
    assert msg[|msg| - |tail|..] == tail;
    if path != "" {
      assert problems[0] == "LEGACY: " + Join(markers, ", ");
      assert problems[0][..|"LEGACY: "|] == "LEGACY: ";
    }
  }

  /**
   * Deleting a backstore frees its index for the next create of the same
   * plugin, provided every lower index is taken: with rd_mcp0 and rd_mcp1 in
   * place, deleting rd_mcp0 makes 0 the next rd_mcp index.
   */
  lemma DeletedIndexIsReused(hbas: set<Hba>, h: Hba)
    requires h in hbas && h.index < IndexBound
    requires forall j :: 0 <= j < h.index ==> j in IndexesIn(hbas, h.plugin)
    ensures LowestFree(IndexesIn(hbas - {h}, h.plugin), 0, IndexBound) == Some(h.index as int)
  {
    var used := IndexesIn(hbas, h.plugin);
    assert IndexesIn(hbas - {h}, h.plugin) == used - {h.index} by {
      forall k | k in used - {h.index}
        ensures k in IndexesIn(hbas - {h}, h.plugin)
      {
        var g :| g in hbas && g.plugin == h.plugin && g.index == k;
        assert g != h;
      }
    }
    FreedValueIsReused(used, 0, IndexBound, h.index);
  }

  /** UIBackstore: the node of one plugin, listing that plugin's storage objects. */
  class BackstoreNode {
    const plugin: string
    const driver: Driver
    var children: seq<ChildNode>

    /** The library is consistent and every listed child is a storage object of this plugin. */
    ghost predicate Valid()
      reads this, driver
    {
      && driver.Valid()
      && forall c :: c in children ==> c.so in driver.objects && c.so.hba.plugin == plugin
    }

    /** What `refresh` builds: one child per storage object of this plugin, listed under its own name. */
    ghost predicate Refreshed()
      reads this, driver
    {
      forall c :: c in children <==> c.name == c.so.name && c.so in driver.objects && c.so.hba.plugin == plugin
    }

    /** The index `next_hba_index` picks, as a function of the library state. */
    function NextIndex(): Option<int>
      reads this, driver
    {
      LowestFree(driver.IndexesOf(plugin), 0, IndexBound)
    }

    constructor (plugin: string, driver: Driver)
      requires driver.Valid()
      ensures this.plugin == plugin && this.driver == driver
      ensures Valid() && Refreshed()
    {
      this.plugin := plugin;
      this.driver := driver;
      children := [];
      new;
      Refresh();
    }

    /** refresh: rebuild the children from the library's storage objects. */
    method Refresh()
      requires driver.Valid()
      modifies this
      ensures Valid() && Refreshed()
    {
      children := [];
      var rest := driver.objects;
      while rest != {}
        invariant rest <= driver.objects
        invariant forall c :: c in children <==>
          c.name == c.so.name && c.so in driver.objects - rest && c.so.hba.plugin == plugin
        decreases |rest|
      {
        var so :| so in rest;
        if so.hba.plugin == plugin {
          children := children + [ChildNode(so.name, so)];
        }
        rest := rest - {so};
      }
    }

    /** UIBackstore.summary: "N Storage Object(s)", with no health verdict. */
    function Summary(): (r: (string, Option<bool>))
      reads this
      ensures r.1.None?
      ensures StartsWith(r.0, NatToString(|children|) + " ")
      ensures r.0[|NatToString(|children|)| + 1..] == (if |children| > 1 then "Storage Objects" else "Storage Object")
    {
      (CountSummary(|children|, "Storage Object", "Storage Objects"), None)
    }

    /**
     * next_hba_index: the lowest index in [0, 1048576) that no backstore of
     * this plugin uses; backstores of other plugins play no part.
     */
    method NextHbaIndex() returns (r: Result<nat, Error>)
      ensures r.Ok? ==> IsLowestFree(driver.IndexesOf(plugin), 0, IndexBound, r.value)
      ensures r.Ok? ==> NextIndex() == Some(r.value as int)
      ensures r.Err? ==> r == Err(NoAvailableIndex) && NextIndex().None?
      ensures r.Err? ==> AllUsed(driver.IndexesOf(plugin), 0, IndexBound)
    {
      var indexes := driver.IndexesOf(plugin);
      var found := FirstFree(indexes, 0, IndexBound);
      if found.None? {
        return Err(NoAvailableIndex);
      }
      r := Ok(found.value);
    }

    /** assert_available_so_name: fails exactly when a child already has the name. */
    function AssertAvailableName(name: string): (r: Outcome<Error>)
      reads this
      ensures r.Fail? <==> exists c :: c in children && c.name == name
      ensures r.Fail? ==> r.error == NameInUse(plugin, name)
    {
      NamesMembership(children, name);
      if name in Names(children) then Fail(NameInUse(plugin, name)) else Pass
    }

    /**
     * The outcome of creating a backstore and a storage object on it, from the
     * library state (hbas0, objects0) and listing children0 before: the HBA
     * takes the lowest free index; on any failure everything is as before
     * (the HBA, if created, was deleted again); on success exactly one HBA and
     * one storage object were added and the new node is listed last.
     */
    ghost predicate CreatedPair(hbas0: set<Hba>, objects0: set<StorageObject>, children0: seq<ChildNode>,
                                name: string, config: SoConfig, reply: Reply, r: Result<ChildNode, Error>)
      reads this, driver
    {
      var next := LowestFree(IndexesIn(hbas0, plugin), 0, IndexBound);
      && (next.None? ==> r == Err(NoAvailableIndex))
      && (next.Some? && !reply.Accept? ==> r == Err(DriverError(reply.reason)))
      && (r.Err? ==> driver.hbas == hbas0 && driver.objects == objects0 && children == children0)
      && (next.Some? && reply.Accept? ==>
            var h := Hba(plugin, next.value);
            var so := StorageObject(name, h, config, reply.udevPath, reply.status);
            && h !in hbas0
            && r == Ok(ChildNode(name, so))
            && driver.hbas == hbas0 + {h}
            && driver.objects == objects0 + {so}
            && children == children0 + [ChildNode(name, so)])
    }

    /**
     * The steps every create shares once the name is known to be free: pick
     * the index, create the HBA, try to create the storage object, and on
     * failure delete the HBA and re-raise.
     */
    method CreateOn(name: string, config: SoConfig, reply: Reply) returns (r: Result<ChildNode, Error>)
      requires Valid()
      modifies this, driver
      ensures Valid()
      ensures CreatedPair(old(driver.hbas), old(driver.objects), old(children), name, config, reply, r)
    {
      var index := NextHbaIndex();
      if index.Err? {
        return Err(index.error);
      }
      var h := Hba(plugin, index.value);
      var used := driver.IndexesOf(plugin);
      assert forall g :: g in driver.hbas && g.plugin == plugin ==> g.index in used;
      if reply.RejectHba? {
        return Err(DriverError(reply.reason));
      }
      driver.CreateHba(h);
      if reply.RejectObject? {
        assert driver.ObjectsOn(h) == {};
        driver.DeleteHba(h);
        return Err(DriverError(reply.reason));
      }
      var so := StorageObject(name, h, config, reply.udevPath, reply.status);
      driver.CreateObject(so);
      r := Ok(ChildNode(so.name, so));
      children := children + [r.value];
    }

    /** UIPSCSIBackstore.ui_command_create */
    method CreatePscsi(name: string, dev: string, reply: Reply) returns (r: Result<ChildNode, Error>)
      requires Valid()
      modifies this, driver
      ensures Valid()
      ensures name in old(Names(children)) ==> r == Err(NameInUse(plugin, name)) && unchanged(this, driver)
      ensures name !in old(Names(children)) ==>
        CreatedPair(old(driver.hbas), old(driver.objects), old(children), name, PassThrough(dev), reply, r)
    {
      var available := AssertAvailableName(name);
      if available.Fail? {
        NamesMembership(children, name);
        return Err(available.error);
      }
      NamesMembership(children, name);
      r := CreateOn(name, PassThrough(dev), reply);
    }

    /** UIRDMCPBackstore.ui_command_create */
    method CreateRdMcp(name: string, size: string, reply: Reply) returns (r: Result<ChildNode, Error>)
      requires Valid()
      modifies this, driver
      ensures Valid()
      ensures name in old(Names(children)) ==> r == Err(NameInUse(plugin, name)) && unchanged(this, driver)
      ensures name !in old(Names(children)) ==>
        CreatedPair(old(driver.hbas), old(driver.objects), old(children), name, Ramdisk(size, None), reply, r)
    {
      var available := AssertAvailableName(name);
      NamesMembership(children, name);
      if available.Fail? {
        return Err(available.error);
      }
      r := CreateOn(name, Ramdisk(size, None), reply);
    }

    /**
     * UIFileIOBackstore.ui_command_create: the name is checked first; then a
     * backstore is created only for a device path without a size or for a
     * size with a path that is not a device (`isDev` is the answer of the
     * block-type and disk-partition probes); any other combination is
     * refused and nothing is created.
     */
    method CreateFileio(name: string, fileOrDev: string, size: Option<string>, buffered: BoolArg,
                        isDev: bool, reply: Reply) returns (r: Result<ChildNode, Error>)
      requires Valid()
      modifies this, driver
      ensures Valid()
      ensures name in old(Names(children)) ==> r == Err(NameInUse(plugin, name)) && unchanged(this, driver)
      ensures name !in old(Names(children)) && !FileioArgsValid(size, isDev) ==>
        r == Err(FileioArguments) && unchanged(this, driver)
      ensures name !in old(Names(children)) && FileioArgsValid(size, isDev) ==>
        CreatedPair(old(driver.hbas), old(driver.objects), old(children), name,
                    FileBacked(fileOrDev, size, None, PrmBuffered(buffered)), reply, r)
    {
      var available := AssertAvailableName(name);
      NamesMembership(children, name);
      if available.Fail? {
        return Err(available.error);
      }
      if size.None? && isDev {
        r := CreateOn(name, FileBacked(fileOrDev, None, None, PrmBuffered(buffered)), reply);
      } else if size.Some? && !isDev {
        r := CreateOn(name, FileBacked(fileOrDev, size, None, PrmBuffered(buffered)), reply);
      } else {
        r := Err(FileioArguments);
      }
    }

    /** UIBlockBackstore.ui_command_create */
    method CreateBlock(name: string, dev: string, reply: Reply) returns (r: Result<ChildNode, Error>)
      requires Valid()
      modifies this, driver
      ensures Valid()
      ensures name in old(Names(children)) ==> r == Err(NameInUse(plugin, name)) && unchanged(this, driver)
      ensures name !in old(Names(children)) ==>
        CreatedPair(old(driver.hbas), old(driver.objects), old(children), name, BlockDevice(dev, None), reply, r)
    {
      var available := AssertAvailableName(name);
      NamesMembership(children, name);
      if available.Fail? {
        return Err(available.error);
      }
      r := CreateOn(name, BlockDevice(dev, None), reply);
    }

    /**
     * ui_command_delete: delete the storage object listed under `name`, then
     * its HBA if no storage object is left on it; an unknown name changes
     * nothing. The tree is refreshed afterwards.
     */
    method Delete(name: string) returns (r: Outcome<Error>)
      requires Valid()
      modifies this, driver
      ensures Valid()
      ensures name !in old(Names(children)) ==> r == Fail(NoStorageObject(name)) && unchanged(this, driver)
      ensures name in old(Names(children)) ==>
        var so := old(children[FirstIndex(Names(children), name).value].so);
        && r == Pass
        && so in old(driver.objects)
        && driver.objects == old(driver.objects) - {so}
        && driver.hbas == (if ObjectsIn(driver.objects, so.hba) == {} then old(driver.hbas) - {so.hba} else old(driver.hbas))
        && Refreshed()
    {
      var i := FirstIndex(Names(children), name);
      if i.None? {
        return Fail(NoStorageObject(name));
      }
      var child := children[i.value];
      assert child in children;
      var hba := child.so.hba;
      driver.DeleteObject(child.so);
      if driver.ObjectsOn(hba) == {} {
        driver.DeleteHba(hba);
      }
      children := RemoveAt(children, i.value);
      Refresh();
      r := Pass;
    }

    /** ui_complete_delete: the children's names that start with `text`. */
    function CompleteDelete(param: string, text: string): (r: seq<string>)
      reads this
      ensures param != "name" ==> r == []
      ensures param == "name" ==> CompletesTo(r, Matching(Names(children), text))
      ensures param == "name" ==>
        forall x :: x in Unfinish(r) <==> StartsWith(x, text) && exists c :: c in children && c.name == x
    {
      if param == "name" then
        var r := Completions(Names(children), text);
        assert forall x :: x in Names(children) <==> exists c :: c in children && c.name == x by {
          forall x { NamesMembership(children, x); }
        }
        r
      else []
    }
  }
}
