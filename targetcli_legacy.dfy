/*
 * targetcli's legacy backstores tree (targetcli/ui_backstore_legacy.py): the
 * user manages backstores (HBAs) explicitly. The root lists one node per
 * backstore of a known plugin; `create <plugin>` adds a backstore at the
 * plugin's lowest free index; each backstore node lists and creates the
 * storage objects living on it. Deleting a backstore deletes its storage
 * objects with it; deleting a storage object leaves its backstore in place.
 */
module TargetcliLegacy {
  import opened Common
  import opened Allocation
  import opened Rtslib

  datatype Error =
    | NoAvailableIndex               // "Cannot find an available backstore index."
    | InvalidPlugin(plugin: string)  // "Invalid backstore plugin %s"
    | NoBackstore(name: string)      // "No backstore named %s."
    | NoStorageObject(name: string)  // "No storage object named %s."
    | DriverError(reason: string)    // an exception of the library, propagated
    | FileioArguments                // "For fileio, you must either specify both a file and a size, or just a device path."

  /** `[child.name for child in children]` for backstore nodes. */
  function HbaNames(hs: seq<Hba>): (r: seq<string>)
    ensures |r| == |hs|
    ensures forall i :: 0 <= i < |hs| ==> r[i] == HbaName(hs[i])
  {
    if hs == [] then [] else [HbaName(hs[0])] + HbaNames(hs[1..])
  }

  /** `[child.name for child in children]` for storage-object nodes. */
  function ObjectNames(os: seq<StorageObject>): (r: seq<string>)
    ensures |r| == |os|
    ensures forall i :: 0 <= i < |os| ==> r[i] == os[i].name
  {
    if os == [] then [] else [os[0].name] + ObjectNames(os[1..])
  }

  /**
   * UIStorageObjectLegacy.summary: the display path and status, or a broken
   * link when there is no path.
   */
  function StorageObjectSummary(so: StorageObject): (r: (string, bool))
    ensures r.1 <==> DisplayPath(so) != ""
    ensures r.1 ==> StartsWith(r.0, DisplayPath(so) + " ") && r.0[|DisplayPath(so)| + 1..] == so.status
    ensures !r.1 ==> r.0 == "BROKEN STORAGE LINK"
  {
    var path := if IsRamdisk(so.hba.plugin) then "ramdisk" else so.udevPath;
    if path == "" then ("BROKEN STORAGE LINK", false)
    else
      var msg := path + " " + so.status;
      assert msg[..|path| + 1] == path + " ";
      (msg, true)
  }

  /** ui_complete_create: the plugin names starting with `text`. */
  function CompleteCreate(param: string, text: string): (r: seq<string>)
    ensures param != "backstore_plugin" ==> r == []
    ensures param == "backstore_plugin" ==> CompletesTo(r, Matching(Plugins, text))
    ensures param == "backstore_plugin" ==>
      forall x :: x in Unfinish(r) <==> x in Plugins && StartsWith(x, text)
  {
    if param == "backstore_plugin" then Completions(Plugins, text) else []
  }

  /** ui_complete_delete of the backstores node: the listed backstore names starting with `text`. */
  function CompleteBackstoreDelete(children: seq<Hba>, param: string, text: string): (r: seq<string>)
    ensures param != "backstore" ==> r == []
    ensures param == "backstore" ==> CompletesTo(r, Matching(HbaNames(children), text))
    ensures param == "backstore" ==>
      forall x :: x in Unfinish(r) <==> StartsWith(x, text) && exists h :: h in children && HbaName(h) == x
  {
    if param == "backstore" then
      assert forall x :: x in HbaNames(children) <==> exists h :: h in children && HbaName(h) == x by {
        forall x | x in HbaNames(children)
          ensures exists h :: h in children && HbaName(h) == x
        {
          var i :| 0 <= i < |children| && HbaNames(children)[i] == x;
          assert children[i] in children;
        }
        forall h | h in children
          ensures HbaName(h) in HbaNames(children)
        {
          var i :| 0 <= i < |children| && children[i] == h;
          assert HbaNames(children)[i] == HbaName(h);
        }
      }
      Completions(HbaNames(children), text)
    else []
  }

  /** ui_complete_delete of a backstore node: the listed storage-object names starting with `text`. */
  function CompleteObjectDelete(children: seq<StorageObject>, param: string, text: string): (r: seq<string>)
    ensures param != "name" ==> r == []
    ensures param == "name" ==> CompletesTo(r, Matching(ObjectNames(children), text))
    ensures param == "name" ==>
      forall x :: x in Unfinish(r) <==> StartsWith(x, text) && exists so :: so in children && so.name == x
  {
    if param == "name" then
      assert forall x :: x in ObjectNames(children) <==> exists so :: so in children && so.name == x by {
        forall x | x in ObjectNames(children)
          ensures exists so :: so in children && so.name == x
        {
          var i :| 0 <= i < |children| && ObjectNames(children)[i] == x;
          assert children[i] in children;
        }
        forall so | so in children
          ensures so.name in ObjectNames(children)
        {
          var i :| 0 <= i < |children| && children[i] == so;
          assert ObjectNames(children)[i] == so.name;
        }
      }
      Completions(ObjectNames(children), text)
    else []
  }

  /** UIBackstoresLegacy: the root of the legacy tree, one child per backstore of a known plugin. */
  class BackstoresNode {
    const driver: Driver
    var children: seq<Hba>

    ghost predicate Valid()
      reads this, driver
    {
      && driver.Valid()
      && forall h :: h in children ==> h in driver.hbas && h.plugin in Plugins
    }

    /** What `refresh` builds: a node for every backstore whose plugin is one of the five. */
    ghost predicate Refreshed()
      reads this, driver
    {
      forall h :: h in children <==> h in driver.hbas && h.plugin in Plugins
    }

    constructor (driver: Driver)
      requires driver.Valid()
      ensures this.driver == driver
      ensures Valid() && Refreshed()
    {
      this.driver := driver;
      children := [];
      new;
      Refresh();
    }

    method Refresh()
      requires driver.Valid()
      modifies this
      ensures Valid() && Refreshed()
    {
      children := [];
      var rest := driver.hbas;
      while rest != {}
        invariant rest <= driver.hbas
        invariant forall h :: h in children <==> h in driver.hbas - rest && h.plugin in Plugins
        decreases |rest|
      {
        var h :| h in rest;
        if h.plugin in Plugins {
          children := children + [h];
        }
        rest := rest - {h};
      }
    }

    /** summary: "N Backstore(s) (legacy mode)". */
    function Summary(): (r: (string, Option<bool>))
      reads this
      ensures r.1.None?
      ensures StartsWith(r.0, NatToString(|children|) + " ")
      ensures r.0[|NatToString(|children|)| + 1..] == (if |children| > 1 then "Backstores" else "Backstore") + " (legacy mode)"
    {
      (CountSummary(|children|, "Backstore", "Backstores") + " (legacy mode)", None)
    }

    /**
     * ui_command_create: scan for the lowest index the plugin does not use,
     * then create the backstore if the plugin is one of the five. An unknown
     * plugin, an exhausted range or a refusal by the library creates nothing.
     * `failure` is the library's exception while creating the backstore, if any.
     */
    method Create(plugin: string, failure: Option<string>) returns (r: Result<Hba, Error>)
      requires Valid()
      modifies this, driver
      ensures Valid()
      ensures var next := LowestFree(old(driver.IndexesOf(plugin)), 0, IndexBound);
        && (next.None? ==> r == Err(NoAvailableIndex))
        && (next.Some? && plugin !in Plugins ==> r == Err(InvalidPlugin(plugin)))
        && (next.Some? && plugin in Plugins && failure.Some? ==> r == Err(DriverError(failure.value)))
        && (r.Err? ==> unchanged(this, driver))
        && (next.Some? && plugin in Plugins && failure.None? ==>
              var h := Hba(plugin, next.value);
              && h !in old(driver.hbas)
              && r == Ok(h)
              && driver.hbas == old(driver.hbas) + {h}
              && driver.objects == old(driver.objects)
              && children == old(children) + [h])
    {
      var used := driver.IndexesOf(plugin);
      var index := FirstFree(used, 0, IndexBound);
      if index.None? {
        return Err(NoAvailableIndex);
      }
      if plugin !in Plugins {
        return Err(InvalidPlugin(plugin));
      }
      if failure.Some? {
        return Err(DriverError(failure.value));
      }
      var h := Hba(plugin, index.value);
      assert forall g :: g in driver.hbas && g.plugin == plugin ==> g.index in used;
      driver.CreateHba(h);
      children := children + [h];
      r := Ok(h);
    }

    /**
     * ui_command_delete: delete the backstore listed under `name`, together
     * with every storage object on it; an unknown name changes nothing.
     */
    method Delete(name: string) returns (r: Outcome<Error>)
      requires Valid()
      modifies this, driver
      ensures Valid()
      ensures name !in old(HbaNames(children)) ==> r == Fail(NoBackstore(name)) && unchanged(this, driver)
      ensures name in old(HbaNames(children)) ==>
        var h := old(children[FirstIndex(HbaNames(children), name).value]);
        && r == Pass
        && HbaName(h) == name
        && h in old(driver.hbas)
        && driver.hbas == old(driver.hbas) - {h}
        && driver.objects == old(driver.objects) - old(driver.ObjectsOn(h))
        && Refreshed()
    {
      var i := FirstIndex(HbaNames(children), name);
      if i.None? {
        return Fail(NoBackstore(name));
      }
      var h := children[i.value];
      assert h in children;
      driver.DeleteHba(h);
      children := RemoveAt(children, i.value);
      Refresh();
      r := Pass;
    }
  }

  /**
   * UIBackstoreLegacy and its five plugin subclasses: the node of one
   * backstore, listing the storage objects on it. Each create method belongs
   * to the subclass of its plugin.
   */
  class BackstoreNode {
    const hba: Hba
    const driver: Driver
    var children: seq<StorageObject>

    ghost predicate Valid()
      reads this, driver
    {
      && driver.Valid()
      && hba in driver.hbas
      && forall so :: so in children ==> so in driver.objects && so.hba == hba
    }

    /** What `refresh` builds: a node for every storage object on this backstore. */
    ghost predicate Refreshed()
      reads this, driver
    {
      forall so :: so in children <==> so in driver.ObjectsOn(hba)
    }

    constructor (hba: Hba, driver: Driver)
      requires driver.Valid() && hba in driver.hbas
      ensures this.hba == hba && this.driver == driver
      ensures Valid() && Refreshed()
    {
      this.hba := hba;
      this.driver := driver;
      children := [];
      new;
      Refresh();
    }

    method Refresh()
      requires driver.Valid() && hba in driver.hbas
      modifies this
      ensures Valid() && Refreshed()
    {
      children := [];
      var rest := driver.objects;
      while rest != {}
        invariant rest <= driver.objects
        invariant forall so :: so in children <==> so in driver.objects - rest && so.hba == hba
        decreases |rest|
      {
        var so :| so in rest;
        if so.hba == hba {
          children := children + [so];
        }
        rest := rest - {so};
      }
    }

    /** summary: "N Storage Object(s)". */
    function Summary(): (r: (string, Option<bool>))
      reads this
      ensures r.1.None?
      ensures StartsWith(r.0, NatToString(|children|) + " ")
      ensures r.0[|NatToString(|children|)| + 1..] == (if |children| > 1 then "Storage Objects" else "Storage Object")
    {
      (CountSummary(|children|, "Storage Object", "Storage Objects"), None)
    }

    /**
     * What every create of a storage object does: ask the library for it on
     * this backstore and list it; the library's exception leaves all as it was.
     */
    method CreateStorage(name: string, config: SoConfig, reply: Reply) returns (r: Result<StorageObject, Error>)
      requires Valid()
      modifies this, driver
      ensures Valid()
      ensures !reply.Accept? ==> r == Err(DriverError(reply.reason)) && unchanged(this, driver)
      ensures reply.Accept? ==>
        var so := StorageObject(name, hba, config, reply.udevPath, reply.status);
        && r == Ok(so)
        && driver.objects == old(driver.objects) + {so}
        && driver.hbas == old(driver.hbas)
        && children == old(children) + [so]
    {
      if !reply.Accept? {
        return Err(DriverError(reply.reason));
      }
      var so := StorageObject(name, hba, config, reply.udevPath, reply.status);
      driver.CreateObject(so);
      children := children + [so];
      r := Ok(so);
    }

    /** UIPSCSIBackstoreLegacy.ui_command_create */
    method CreatePscsi(name: string, dev: string, reply: Reply) returns (r: Result<StorageObject, Error>)
      requires Valid() && hba.plugin == "pscsi"
      modifies this, driver
      ensures Valid()
      ensures !reply.Accept? ==> r == Err(DriverError(reply.reason)) && unchanged(this, driver)
      ensures reply.Accept? ==>
        r == Ok(StorageObject(name, hba, PassThrough(dev), reply.udevPath, reply.status))
        && driver.objects == old(driver.objects) + {r.value} && driver.hbas == old(driver.hbas)
        && children == old(children) + [r.value]
    {
      r := CreateStorage(name, PassThrough(dev), reply);
    }

    /** UIRDDRBackstoreLegacy.ui_command_create: a WWN serial is generated unless `generateWwn` says no. */
    method CreateRdDr(name: string, size: string, generateWwn: BoolArg, reply: Reply) returns (r: Result<StorageObject, Error>)
      requires Valid() && hba.plugin == "rd_dr"
      modifies this, driver
      ensures Valid()
      ensures !reply.Accept? ==> r == Err(DriverError(reply.reason)) && unchanged(this, driver)
      ensures reply.Accept? ==>
        r == Ok(StorageObject(name, hba, Ramdisk(size, Some(PrmGenWwn(generateWwn))), reply.udevPath, reply.status))
        && driver.objects == old(driver.objects) + {r.value} && driver.hbas == old(driver.hbas)
        && children == old(children) + [r.value]
    {
      r := CreateStorage(name, Ramdisk(size, Some(PrmGenWwn(generateWwn))), reply);
    }

    /** UIRDMCPBackstoreLegacy.ui_command_create */
    method CreateRdMcp(name: string, size: string, generateWwn: BoolArg, reply: Reply) returns (r: Result<StorageObject, Error>)
      requires Valid() && hba.plugin == "rd_mcp"
      modifies this, driver
      ensures Valid()
      ensures !reply.Accept? ==> r == Err(DriverError(reply.reason)) && unchanged(this, driver)
      ensures reply.Accept? ==>
        r == Ok(StorageObject(name, hba, Ramdisk(size, Some(PrmGenWwn(generateWwn))), reply.udevPath, reply.status))
        && driver.objects == old(driver.objects) + {r.value} && driver.hbas == old(driver.hbas)
        && children == old(children) + [r.value]
    {
      r := CreateStorage(name, Ramdisk(size, Some(PrmGenWwn(generateWwn))), reply);
    }

    /**
     * UIFileIOBackstoreLegacy.ui_command_create: a device path without a
     * size, or a size with a path that is not a device (`isDev` answers the
     * device probes); anything else is refused and nothing is created.
     * The library receives the buffered argument as written (see
     * PrmBufferedAsWritten) and reads it by truthiness.
     */
    method CreateFileio(name: string, fileOrDev: string, size: Option<string>, generateWwn: BoolArg,
                        buffered: BoolArg, isDev: bool, reply: Reply) returns (r: Result<StorageObject, Error>)
      requires Valid() && hba.plugin == "fileio"
      modifies this, driver
      ensures Valid()
      ensures !FileioArgsValid(size, isDev) ==> r == Err(FileioArguments) && unchanged(this, driver)
      ensures FileioArgsValid(size, isDev) && !reply.Accept? ==> r == Err(DriverError(reply.reason)) && unchanged(this, driver)
      ensures FileioArgsValid(size, isDev) && reply.Accept? ==>
        r == Ok(StorageObject(name, hba, FileBacked(fileOrDev, size, Some(PrmGenWwn(generateWwn)), Truthy(PrmBufferedAsWritten(buffered))), reply.udevPath, reply.status))
        && driver.objects == old(driver.objects) + {r.value} && driver.hbas == old(driver.hbas)
        && children == old(children) + [r.value]
    {
      if size.None? && isDev {
        r := CreateStorage(name, FileBacked(fileOrDev, None, Some(PrmGenWwn(generateWwn)), Truthy(PrmBufferedAsWritten(buffered))), reply);
      } else if size.Some? && !isDev {
        r := CreateStorage(name, FileBacked(fileOrDev, size, Some(PrmGenWwn(generateWwn)), Truthy(PrmBufferedAsWritten(buffered))), reply);
      } else {
        r := Err(FileioArguments);
      }
    }

    /** UIIBlockBackstoreLegacy.ui_command_create */
    method CreateIblock(name: string, dev: string, generateWwn: BoolArg, reply: Reply) returns (r: Result<StorageObject, Error>)
      requires Valid() && hba.plugin == "iblock"
      modifies this, driver
      ensures Valid()
      ensures !reply.Accept? ==> r == Err(DriverError(reply.reason)) && unchanged(this, driver)
      ensures reply.Accept? ==>
        r == Ok(StorageObject(name, hba, BlockDevice(dev, Some(PrmGenWwn(generateWwn))), reply.udevPath, reply.status))
        && driver.objects == old(driver.objects) + {r.value} && driver.hbas == old(driver.hbas)
        && children == old(children) + [r.value]
    {
      r := CreateStorage(name, BlockDevice(dev, Some(PrmGenWwn(generateWwn))), reply);
    }

    /**
     * ui_command_delete: delete the storage object listed under `name`; the
     * backstore itself stays, even when it is left empty.
     */
    method Delete(name: string) returns (r: Outcome<Error>)
      requires Valid()
      modifies this, driver
      ensures Valid()
      ensures name !in old(ObjectNames(children)) ==> r == Fail(NoStorageObject(name)) && unchanged(this, driver)
      ensures name in old(ObjectNames(children)) ==>
        var so := old(children[FirstIndex(ObjectNames(children), name).value]);
        && r == Pass
        && so.name == name
        && so in old(driver.objects)
        && driver.objects == old(driver.objects) - {so}
        && driver.hbas == old(driver.hbas)
        && Refreshed()
    {
      var i := FirstIndex(ObjectNames(children), name);
      if i.None? {
        return Fail(NoStorageObject(name));
      }
      var so := children[i.value];
      assert so in children;
      driver.DeleteObject(so);
      children := RemoveAt(children, i.value);
      Refresh();
      r := Pass;
    }
  }
}
