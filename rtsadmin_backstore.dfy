/*
 * rtsadmin's backstores tree (rtsadmin/ui_backstore.py). It manages
 * backstores (HBAs) explicitly, like targetcli's legacy tree: the same index
 * scan, the same five plugins, the same storage-object creates. Deletion
 * walks the children with an explicit loop and reports when nothing matched.
 */
module RtsadminBackstore {
  import opened Common
  import opened Allocation
  import opened Rtslib
  import TargetcliLegacy

  datatype Error =
    | NoAvailableIndex                 // "Cannot find an available backstore index."
    | InvalidPlugin(plugin: string)    // "Invalid backstore plugin %s"
    | NoBackstore(name: string)        // "Cannot find backstore to delete: %s."
    | NoStorageObject(name: string)    // "Could not find storage object to delete: %s."
    | DriverError(reason: string)      // an exception of the library, propagated
    | FileioArguments                  // "For fileio, you must either specify both a file and a size, or just a device path."
    | AttributeError(attribute: string) // a method the node does not have

  /** UIStorageObject.summary, the same as in the legacy tree: the display path and status, or a broken link. */
  function StorageObjectSummary(so: StorageObject): (r: (string, bool))
    ensures r.1 <==> DisplayPath(so) != ""
    ensures r.1 ==> StartsWith(r.0, DisplayPath(so) + " ") && r.0[|DisplayPath(so)| + 1..] == so.status
    ensures !r.1 ==> r.0 == "BROKEN STORAGE LINK"
  {
    TargetcliLegacy.StorageObjectSummary(so)
  }

  /** UIBackstores: the root of the tree, one child per backstore of a known plugin. */
  class BackstoresNode {
    const driver: Driver
    var children: seq<Hba>

    ghost predicate Valid()
      reads this, driver
    {
      && driver.Valid()
      && forall h :: h in children ==> h in driver.hbas && h.plugin in Plugins
    }

    ghost predicate Refreshed()
      reads this, driver
    {
      forall h :: h in children <==> h in driver.hbas && h.plugin in Plugins
    }

    constructor (driver: Driver)
      requires driver.Valid()
      ensures this.driver == driver
      ensures Valid() && Refreshed()
    {
      this.driver := driver;
      children := [];
      new;
      Refresh();
    }

    /** refresh: one child per backstore of the five plugins; others are skipped. */
    method Refresh()
      requires driver.Valid()
      modifies this
      ensures Valid() && Refreshed()
    {
      children := [];
      var rest := driver.hbas;
      while rest != {}
        invariant rest <= driver.hbas
        invariant forall h :: h in children <==> h in driver.hbas - rest && h.plugin in Plugins
        decreases |rest|
      {
        var h :| h in rest;
        if h.plugin in Plugins {
          children := children + [h];
        }
        rest := rest - {h};
      }
    }

    /** ui_complete_create: the five plugin names starting with `text`, as in the legacy tree. */
    function CompleteCreate(param: string, text: string): (r: seq<string>)
      ensures param != "backstore_plugin" ==> r == []
      ensures param == "backstore_plugin" ==> CompletesTo(r, Matching(Plugins, text))
      ensures param == "backstore_plugin" ==> forall x :: x in Unfinish(r) <==> x in Plugins && StartsWith(x, text)
    {
      TargetcliLegacy.CompleteCreate(param, text)
    }

    /** ui_complete_delete: the listed backstore names starting with `text`. */
    function CompleteDelete(param: string, text: string): (r: seq<string>)
      reads this
      ensures param != "backstore" ==> r == []
      ensures param == "backstore" ==> CompletesTo(r, Matching(TargetcliLegacy.HbaNames(children), text))
      ensures param == "backstore" ==>
        forall x :: x in Unfinish(r) <==> StartsWith(x, text) && exists h :: h in children && HbaName(h) == x
    {
      TargetcliLegacy.CompleteBackstoreDelete(children, param, text)
    }

    /** summary: "N Backstore(s)". */
    function Summary(): (r: (string, Option<bool>))
      reads this
      ensures r.1.None?
      ensures StartsWith(r.0, NatToString(|children|) + " ")
      ensures r.0[|NatToString(|children|)| + 1..] == (if |children| > 1 then "Backstores" else "Backstore")
    {
      (CountSummary(|children|, "Backstore", "Backstores"), None)
    }

    /**
     * ui_command_create: the lowest index the plugin does not use, then the
     * backstore if the plugin is one of the five. `failure` is the library's
     * exception while creating the backstore, if any.
     */
    method Create(plugin: string, failure: Option<string>) returns (r: Result<Hba, Error>)
      requires Valid()
      modifies this, driver
      ensures Valid()
      ensures var next := LowestFree(old(driver.IndexesOf(plugin)), 0, IndexBound);
        && (next.None? ==> r == Err(NoAvailableIndex))
        && (next.Some? && plugin !in Plugins ==> r == Err(InvalidPlugin(plugin)))
        && (next.Some? && plugin in Plugins && failure.Some? ==> r == Err(DriverError(failure.value)))
        && (r.Err? ==> unchanged(this, driver))
        && (next.Some? && plugin in Plugins && failure.None? ==>
              var h := Hba(plugin, next.value);
              && h !in old(driver.hbas)
              && r == Ok(h)
              && driver.hbas == old(driver.hbas) + {h}
              && driver.objects == old(driver.objects)
              && children == old(children) + [h])
    {
      var used := driver.IndexesOf(plugin);
      var index := FirstFree(used, 0, IndexBound);
      if index.None? {
        return Err(NoAvailableIndex);
      }
      if plugin !in Plugins {
        return Err(InvalidPlugin(plugin));
      }
      if failure.Some? {
        return Err(DriverError(failure.value));
      }
      var h := Hba(plugin, index.value);
      assert forall g :: g in driver.hbas && g.plugin == plugin ==> g.index in used;
      driver.CreateHba(h);
      children := children + [h];
      r := Ok(h);
    }

    /**
     * ui_command_delete: walk the children; the first one named `name` is
     * deleted with every storage object on it and the loop stops; when the
     * loop ends without a match nothing changes.
     */
    method Delete(name: string) returns (r: Outcome<Error>)
      requires Valid()
      modifies this, driver
      ensures Valid()
      ensures name !in old(TargetcliLegacy.HbaNames(children)) ==> r == Fail(NoBackstore(name)) && unchanged(this, driver)
      ensures name in old(TargetcliLegacy.HbaNames(children)) ==>
        var h := old(children[FirstIndex(TargetcliLegacy.HbaNames(children), name).value]);
        && r == Pass
        && HbaName(h) == name
        && h in old(driver.hbas)
        && driver.hbas == old(driver.hbas) - {h}
        && driver.objects == old(driver.objects) - old(driver.ObjectsOn(h))
        && Refreshed()
    {
      var i := 0;
      while i < |children|
        invariant 0 <= i <= |children|
        invariant forall j :: 0 <= j < i ==> HbaName(children[j]) != name
      {
        var child := children[i];
        if HbaName(child) == name {
          ghost var names := TargetcliLegacy.HbaNames(children);
          assert FirstIndex(names, name) == Some(i) by {
            var k := FirstIndex(names, name);
            assert k.Some? && names[k.value] == name;
            assert !(k.value < i) && !(i < k.value);
          }
          assert child in children;
          driver.DeleteHba(child);
          children := RemoveAt(children, i);
          Refresh();
          return Pass;
        }
        i := i + 1;
      }
      assert name !in TargetcliLegacy.HbaNames(children);
      r := Fail(NoBackstore(name));
    }
  }

  /**
   * UIBackstore and its five plugin subclasses: the node of one backstore,
   * listing the storage objects on it.
   */
  class BackstoreNode {
    const hba: Hba
    const driver: Driver
    var children: seq<StorageObject>

    ghost predicate Valid()
      reads this, driver
    {
      && driver.Valid()
      && hba in driver.hbas
      && forall so :: so in children ==> so in driver.objects && so.hba == hba
    }

    ghost predicate Refreshed()
      reads this, driver
    {
      forall so :: so in children <==> so in driver.ObjectsOn(hba)
    }

    constructor (hba: Hba, driver: Driver)
      requires driver.Valid() && hba in driver.hbas
      ensures this.hba == hba && this.driver == driver
      ensures Valid() && Refreshed()
    {
      this.hba := hba;
      this.driver := driver;
      children := [];
      new;
      Refresh();
    }

    /** refresh: one child per storage object on this backstore. */
    method Refresh()
      requires driver.Valid() && hba in driver.hbas
      modifies this
      ensures Valid() && Refreshed()
    {
      children := [];
      var rest := driver.objects;
      while rest != {}
        invariant rest <= driver.objects
        invariant forall so :: so in children <==> so in driver.objects - rest && so.hba == hba
        decreases |rest|
      {
        var so :| so in rest;
        if so.hba == hba {
          children := children + [so];
        }
        rest := rest - {so};
      }
    }

    /** ui_complete_delete: the listed storage-object names starting with `text`. */
    function CompleteDelete(param: string, text: string): (r: seq<string>)
      reads this
      ensures param != "name" ==> r == []
      ensures param == "name" ==> CompletesTo(r, Matching(TargetcliLegacy.ObjectNames(children), text))
      ensures param == "name" ==>
        forall x :: x in Unfinish(r) <==> StartsWith(x, text) && exists so :: so in children && so.name == x
    {
      TargetcliLegacy.CompleteObjectDelete(children, param, text)
    }

    /** summary: "N Storage Object(s)". */
    function Summary(): (r: (string, Option<bool>))
      reads this
      ensures r.1.None?
      ensures StartsWith(r.0, NatToString(|children|) + " ")
      ensures r.0[|NatToString(|children|)| + 1..] == (if |children| > 1 then "Storage Objects" else "Storage Object")
    {
      (CountSummary(|children|, "Storage Object", "Storage Objects"), None)
    }

    /** The library creates the storage object on this backstore and the node lists it, or nothing changes. */
    method CreateStorage(name: string, config: SoConfig, reply: Reply) returns (r: Result<StorageObject, Error>)
      requires Valid()
      modifies this, driver
      ensures Valid()
      ensures !reply.Accept? ==> r == Err(DriverError(reply.reason)) && unchanged(this, driver)
      ensures reply.Accept? ==>
        var so := StorageObject(name, hba, config, reply.udevPath, reply.status);
        && r == Ok(so)
        && driver.objects == old(driver.objects) + {so}
        && driver.hbas == old(driver.hbas)
        && children == old(children) + [so]
    {
      if !reply.Accept? {
        return Err(DriverError(reply.reason));
      }
      var so := StorageObject(name, hba, config, reply.udevPath, reply.status);
      driver.CreateObject(so);
      children := children + [so];
      r := Ok(so);
    }

    /** UIPSCSIBackstore.ui_command_create */
    method CreatePscsi(name: string, dev: string, reply: Reply) returns (r: Result<StorageObject, Error>)
      requires Valid() && hba.plugin == "pscsi"
      modifies this, driver
      ensures Valid()
      ensures !reply.Accept? ==> r == Err(DriverError(reply.reason)) && unchanged(this, driver)
      ensures reply.Accept? ==>
        r == Ok(StorageObject(name, hba, PassThrough(dev), reply.udevPath, reply.status))
        && driver.objects == old(driver.objects) + {r.value} && driver.hbas == old(driver.hbas)
        && children == old(children) + [r.value]
    {
      r := CreateStorage(name, PassThrough(dev), reply);
    }

    /** UIRDDRBackstore.ui_command_create */
    method CreateRdDr(name: string, size: string, generateWwn: BoolArg, reply: Reply) returns (r: Result<StorageObject, Error>)
      requires Valid() && hba.plugin == "rd_dr"
      modifies this, driver
      ensures Valid()
      ensures !reply.Accept? ==> r == Err(DriverError(reply.reason)) && unchanged(this, driver)
      ensures reply.Accept? ==>
        r == Ok(StorageObject(name, hba, Ramdisk(size, Some(PrmGenWwn(generateWwn))), reply.udevPath, reply.status))
        && driver.objects == old(driver.objects) + {r.value} && driver.hbas == old(driver.hbas)
        && children == old(children) + [r.value]
    {
      r := CreateStorage(name, Ramdisk(size, Some(PrmGenWwn(generateWwn))), reply);
    }

    /** UIRDMCPBackstore.ui_command_create */
    method CreateRdMcp(name: string, size: string, generateWwn: BoolArg, reply: Reply) returns (r: Result<StorageObject, Error>)
      requires Valid() && hba.plugin == "rd_mcp"
      modifies this, driver
      ensures Valid()
      ensures !reply.Accept? ==> r == Err(DriverError(reply.reason)) && unchanged(this, driver)
      ensures reply.Accept? ==>
        r == Ok(StorageObject(name, hba, Ramdisk(size, Some(PrmGenWwn(generateWwn))), reply.udevPath, reply.status))
        && driver.objects == old(driver.objects) + {r.value} && driver.hbas == old(driver.hbas)
        && children == old(children) + [r.value]
    {
      r := CreateStorage(name, Ramdisk(size, Some(PrmGenWwn(generateWwn))), reply);
    }

    /**
     * UIFileIOBackstore.ui_command_create: the library receives the buffered
     * argument as written (see PrmBufferedAsWritten) and reads it by truthiness.
     */
    method CreateFileio(name: string, fileOrDev: string, size: Option<string>, generateWwn: BoolArg,
                        buffered: BoolArg, isDev: bool, reply: Reply) returns (r: Result<StorageObject, Error>)
      requires Valid() && hba.plugin == "fileio"
      modifies this, driver
      ensures Valid()
      ensures !FileioArgsValid(size, isDev) ==> r == Err(FileioArguments) && unchanged(this, driver)
      ensures FileioArgsValid(size, isDev) && !reply.Accept? ==> r == Err(DriverError(reply.reason)) && unchanged(this, driver)
      ensures FileioArgsValid(size, isDev) && reply.Accept? ==>
        r == Ok(StorageObject(name, hba, FileBacked(fileOrDev, size, Some(PrmGenWwn(generateWwn)), Truthy(PrmBufferedAsWritten(buffered))), reply.udevPath, reply.status))
        && driver.objects == old(driver.objects) + {r.value} && driver.hbas == old(driver.hbas)
        && children == old(children) + [r.value]
    {
      if size.None? && isDev {
        r := CreateStorage(name, FileBacked(fileOrDev, None, Some(PrmGenWwn(generateWwn)), Truthy(PrmBufferedAsWritten(buffered))), reply);
      } else if size.Some? && !isDev {
        r := CreateStorage(name, FileBacked(fileOrDev, size, Some(PrmGenWwn(generateWwn)), Truthy(PrmBufferedAsWritten(buffered))), reply);
      } else {
        r := Err(FileioArguments);
      }
    }

    /**
     * UIIBlockBackstore.ui_command_create as written: the WWN argument is
     * computed by `self.prm_wwn`, which no node class defines, so the call
     * raises before the library is asked for anything, whatever the input.
     */
    method CreateIblockAsWritten(name: string, dev: string, generateWwn: BoolArg, reply: Reply)
      returns (r: Result<StorageObject, Error>)
      requires Valid() && hba.plugin == "iblock"
      modifies this, driver
      ensures r == Err(AttributeError("prm_wwn"))
      ensures unchanged(this, driver)
    {
      r := Err(AttributeError("prm_wwn"));
    }

    /** UIIBlockBackstore.ui_command_create as intended: the WWN flag from prm_gen_wwn. */
    method CreateIblock(name: string, dev: string, generateWwn: BoolArg, reply: Reply) returns (r: Result<StorageObject, Error>)
      requires Valid() && hba.plugin == "iblock"
      modifies this, driver
      ensures Valid()
      ensures !reply.Accept? ==> r == Err(DriverError(reply.reason)) && unchanged(this, driver)
      ensures reply.Accept? ==>
        r == Ok(StorageObject(name, hba, BlockDevice(dev, Some(PrmGenWwn(generateWwn))), reply.udevPath, reply.status))
        && driver.objects == old(driver.objects) + {r.value} && driver.hbas == old(driver.hbas)
        && children == old(children) + [r.value]
    {
      r := CreateStorage(name, BlockDevice(dev, Some(PrmGenWwn(generateWwn))), reply);
    }

    /**
     * ui_command_delete: walk the children; the first one named `name` is
     * deleted and the loop stops (the backstore stays); no match changes nothing.
     */
    method Delete(name: string) returns (r: Outcome<Error>)
      requires Valid()
      modifies this, driver
      ensures Valid()
      ensures name !in old(TargetcliLegacy.ObjectNames(children)) ==> r == Fail(NoStorageObject(name)) && unchanged(this, driver)
      ensures name in old(TargetcliLegacy.ObjectNames(children)) ==>
        var so := old(children[FirstIndex(TargetcliLegacy.ObjectNames(children), name).value]);
        && r == Pass
        && so.name == name
        && so in old(driver.objects)
        && driver.objects == old(driver.objects) - {so}
        && driver.hbas == old(driver.hbas)
        && Refreshed()
    {
      var i := 0;
      while i < |children|
        invariant 0 <= i <= |children|
        invariant forall j :: 0 <= j < i ==> children[j].name != name
      {
        var child := children[i];
        if child.name == name {
          ghost var names := TargetcliLegacy.ObjectNames(children);
          assert FirstIndex(names, name) == Some(i) by {
            var k := FirstIndex(names, name);
            assert k.Some? && names[k.value] == name;
            assert !(k.value < i) && !(i < k.value);
          }
          assert child in children;
          driver.DeleteObject(child);
          children := RemoveAt(children, i);
          Refresh();
          return Pass;
        }
        i := i + 1;
      }
      assert name !in TargetcliLegacy.ObjectNames(children);
      r := Fail(NoStorageObject(name));
    }
  }
}
