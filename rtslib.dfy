/*
 * The kernel-configuration library the shells drive (rtslib), reduced to the
 * state they read and change: the set of backstores (HBAs), each identified
 * by its plugin and index, and the set of storage objects, each living on
 * one HBA. Creating or deleting through this class stands for the library's
 * constructors in mode='create' and its delete() calls.
 */
module Rtslib {
  import opened Common

  /** The five backstore plugins the library offers. */
  const Plugins: seq<string> := ["pscsi", "rd_dr", "rd_mcp", "fileio", "iblock"]

  /** A backstore (an HBA in the kernel's terms). */
  datatype Hba = Hba(plugin: string, index: nat)

  /** The name the library gives a backstore: plugin then index, as in "iblock2" or "pscsi0". */
  function HbaName(h: Hba): string {
    h.plugin + NatToString(h.index)
  }

  /** Whether a plugin is one of the ramdisk plugins: the shells test `plugin.startswith("rd")`. */
  predicate IsRamdisk(plugin: string) {
    StartsWith(plugin, "rd")
  }

  /** What a storage object was created from: the arguments the shells pass to the library. */
  datatype SoConfig =
    | PassThrough(dev: string)
    | Ramdisk(size: string, genWwn: Option<bool>)
    | FileBacked(path: string, fileSize: Option<string>, genWwn: Option<bool>, buffered: bool)
    | BlockDevice(dev: string, genWwn: Option<bool>)

  /** A storage object and the attributes the library reports for it. */
  datatype StorageObject = StorageObject(name: string, hba: Hba, config: SoConfig, udevPath: string, status: string)

  /** The path the shells display: "ramdisk" for rd* plugins, else the udev path. */
  function DisplayPath(so: StorageObject): (p: string)
    ensures IsRamdisk(so.hba.plugin) ==> p == "ramdisk"
    ensures !IsRamdisk(so.hba.plugin) ==> p == so.udevPath
  {
    if IsRamdisk(so.hba.plugin) then "ramdisk" else so.udevPath
  }

  /**
   * How the library answers a creation request: it accepts it and reports the
   * new object's udev path and status, or raises while creating the
   * backstore, or raises while creating the storage object.
   */
  datatype Reply = Accept(udevPath: string, status: string) | RejectHba(reason: string) | RejectObject(reason: string)

  /** `[b.index for b in RTSRoot().backstores if b.plugin == plugin]`, as a set. */
  function IndexesIn(hbas: set<Hba>, plugin: string): set<int> {
    set h | h in hbas && h.plugin == plugin :: h.index
  }

  /** The storage objects living on `h`. */
  function ObjectsIn(objects: set<StorageObject>, h: Hba): set<StorageObject> {
    set so | so in objects && so.hba == h
  }

  /** Backstores of other plugins never change the indexes a plugin sees. */
  lemma OtherPluginsIgnored(hbas: set<Hba>, extra: set<Hba>, plugin: string)
    requires forall h :: h in extra ==> h.plugin != plugin
    ensures IndexesIn(hbas + extra, plugin) == IndexesIn(hbas, plugin)
  {
  }

  class Driver {
    var hbas: set<Hba>
    var objects: set<StorageObject>

    /** Every storage object lives on an existing backstore. */
    ghost predicate Valid()
      reads this
    {
      forall so :: so in objects ==> so.hba in hbas
    }

    function IndexesOf(plugin: string): set<int>
      reads this
    {
      IndexesIn(hbas, plugin)
    }

    function ObjectsOn(h: Hba): set<StorageObject>
      reads this
    {
      ObjectsIn(objects, h)
    }

    constructor ()
      ensures Valid()
      ensures hbas == {} && objects == {}
    {
      hbas, objects := {}, {};
    }

    method CreateHba(h: Hba)
      requires Valid()
      modifies this
      ensures Valid()
      ensures hbas == old(hbas) + {h} && objects == old(objects)
    {
      hbas := hbas + {h};
    }

    /** Deleting a backstore deletes the storage objects on it too. */
    method DeleteHba(h: Hba)
      requires Valid()
      modifies this
      ensures Valid()
      ensures hbas == old(hbas) - {h}
      ensures objects == old(objects) - old(ObjectsOn(h))
    {
      objects := objects - ObjectsOn(h);
      hbas := hbas - {h};
    }

    method CreateObject(so: StorageObject)
      requires Valid() && so.hba in hbas
      modifies this
      ensures Valid()
      ensures objects == old(objects) + {so} && hbas == old(hbas)
    {
      objects := objects + {so};
    }

    method DeleteObject(so: StorageObject)
      requires Valid()
      modifies this
      ensures Valid()
      ensures objects == old(objects) - {so} && hbas == old(hbas)
    {
      objects := objects - {so};
    }
  }
}
