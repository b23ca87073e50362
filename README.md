# targetcli / rtsadmin backstore and target bookkeeping

This project models the bookkeeping that two LIO shells do around the kernel
configuration library rtslib. The shells are targetcli, with its current and
its legacy backstores trees, and rtsadmin, with its backstores and targets
trees. The library is replaced by a small `Rtslib.Driver` class. It holds two
sets, and nothing else:

- the backstores (HBAs), each identified by plugin and index;
- the storage objects, each living on one HBA.

Every answer the library or the host gives the shells becomes an input:

- a creation `Reply` (accepted, refused while creating the HBA, or refused
  while creating the storage object);
- a `failure` for the other creations;
- the block-device probes, reduced to `isDev`;
- the fabric module's WWN check, `wwnValid`;
- the interface addresses and the main address of the host.

The model follows the shells tree by tree:

- `Allocation`: the first-free scan over `range(1048576)`. All three trees
  use it for backstore indexes (from 0), and rtsadmin uses it for TPG tags
  (from 1) and LUN numbers (from 0). It is written as the imperative loop
  `FirstFree` and proved against the specification function `LowestFree`.
- `TargetcliBackstore`: targetcli's one-HBA-per-storage-object tree.
  - A create checks the name, picks the lowest free index, creates the HBA,
    then the storage object, and deletes the HBA again when the storage
    object is refused.
  - A delete removes the storage object, and removes its HBA once nothing is
    left on it.
  - The storage-object summary flags broken links and legacy layouts
    ("ADDED SUFFIX", "SHARED HBA").
- `TargetcliLegacy` and `RtsadminBackstore`: the older trees, where the user
  creates HBAs explicitly and attaches storage objects to them, with
  delete-by-name and the fileio "size or device" rule.
- `RtsadminTarget`: TPGs, LUNs, node ACLs, mapped LUNs and portals.
  - Tag and LUN allocation, TPG enable and disable, and the summaries.
  - Every completion filter, including the portal-delete completion, which
    gathers portals by address in place.
- `Common`: the conventions the shells share.
  - `str.startswith`, and the completion rule: a single match gets a
    trailing space.
  - `"%d"` rendering, and the "N Thing(s)" count summaries, plural only
    above one.
  - Boolean parameter evaluation.

In the three backstore trees, each node whose children the shell rebuilds
is a class. It has a `children` sequence, a `Refresh` method, and a
`Refreshed()` predicate saying what refresh builds. Creates and deletes state
the whole new state of the driver and of the node, including "nothing
changes" on every error path. In the target tree, `Tpg` and `Target` are
classes over the library's own lists (LUNs, ACLs, portals, TPGs), and their
creates state the whole new state of those lists.

## Model

| member | source | states |
|---|---|---|
| Allocation.LowestFree | targetcli/ui_backstore.py:136-139 | any value found lies in the scanned range and is unused |
| Allocation.LowestFreeCorrect | targetcli/ui_backstore.py:136-142 | the scan returns the least unused index, and fails exactly when every index in the range is used |
| Allocation.LowestFreeUnique | targetcli/ui_backstore.py:136-139 | conversely, the least unused index is the one the scan returns |
| Allocation.FreedValueIsReused | targetcli/ui_backstore.py:136-139 | freeing a value below which everything is used makes it the next value allocated |
| Allocation.AllocationAdvances | targetcli/ui_backstore.py:136-139 | once the allocated value is taken, the next allocation is strictly above it, or there is none |
| Allocation.OutOfRangeIgnored | rtsadmin/ui_target.py:210-214 | used values outside the scanned range never change the result (tag 0 plays no part in tag selection) |
| Allocation.FirstFree | targetcli/ui_backstore_legacy.py:108-115 | the `for index in range(...)` loop with break returns the least free value at or above the lower bound, or nothing when all are used |
| Allocation.ScanAsWritten | targetcli/ui_backstore.py:136-142 | as written, an exhausted scan leaves the index unbound, so the "cannot find" report is never produced |
| Allocation.ScanCorrected | targetcli/ui_backstore.py:136-146 | the corrected scan reports "full" exactly when every index is used, and otherwise gives the least free index |
| Allocation.ExhaustedScanRaises | rtsadmin/ui_backstore.py:119-128 | with the whole range used, the scan as written raises where the corrected one reports; otherwise the two agree |
| Allocation.FullRangeRaises | targetcli/ui_backstore_legacy.py:108-117 | the concrete input: all 1048576 indexes of a plugin in use |
| Common.Completions | targetcli/ui_backstore.py:117-127 | the result is the candidates starting with the text, in order, with a trailing space added when there is exactly one; with that space undone, exactly the matching candidates, and no more entries than candidates |
| Common.Finish | targetcli/ui_backstore.py:124-127 | exactly one completion comes back with a trailing space; any other number of completions comes back unchanged |
| Common.FinishSingleEndsWithSpace | targetcli/ui_backstore.py:124-125 | a single completion ends with a space |
| Common.CompletesToIsFinish | targetcli/ui_backstore.py:124-127 | a result completes a list of matches exactly when it is that list with the single-match space added, so every completion member below returns exactly the trailing-space form of its matches |
| Common.Matching | targetcli/ui_backstore.py:119-120 | a value is a match exactly when it is a candidate starting with the text |
| Common.Filter | rtsadmin/ui_target.py:89-91 | a filtering list comprehension keeps exactly the elements the condition accepts, and never grows the list |
| Common.FinishRoundTrip | targetcli/ui_backstore.py:124-127 | adding the single-match trailing space can be undone, so no completion is lost or invented |
| Common.CompleteParam | rtsadmin/ui_backstore.py:216-226 | completing any other parameter gives nothing; completing the expected one gives the prefix matches, with the single-match trailing space |
| Common.FirstIndex | targetcli/ui_backstore_legacy.py:183-185 | finds the first child with the name, and nothing exactly when no child has it |
| Common.NatToString | rtsadmin/ui_target.py:192-195 | `"%d"` gives a non-empty string of decimal digits |
| Common.DecimalRoundTrip | rtsadmin/ui_target.py:192-195 | reading back the digits gives the number |
| Common.NatToStringInjective | rtsadmin/ui_target.py:644-645 | distinct numbers print differently, so LUN and tag completions never merge two objects |
| Common.IntToString | rtsadmin/ui_target.py:804-808 | `str()` of an integer: a leading minus sign and the digits exactly when negative |
| Common.IntToStringInjective | rtsadmin/ui_target.py:804-808 | distinct ports print differently |
| Common.CountSummary | rtsadmin/ui_backstore.py:53-59 | "N Thing" for zero or one, and "N Things" only above one |
| Common.EvalBool | targetcli/ui_backstore.py:71-78 | an omitted boolean parameter takes the default, and a typed one its value |
| Common.PrmGenWwn | targetcli/ui_backstore_legacy.py:240-247 | a WWN is generated unless the parameter says otherwise, so the default is true |
| Common.PrmBuffered | targetcli/ui_backstore.py:71-78 | the evaluated parameter, buffered mode when it is omitted (the code's default, which the help text at targetcli/ui_backstore.py:235-237 contradicts) |
| Common.PrmBufferedAsWritten | targetcli/ui_backstore_legacy.py:249-256 | as written, the raw argument comes back: None when omitted, its text when typed |
| Common.BufferedAsWrittenDisagrees | rtsadmin/ui_backstore.py:261-268 | read by truthiness, the raw argument and the intended evaluated flag agree when it is omitted (both off) and disagree exactly when a typed text's truthiness differs from its value, as "false" does |
| Common.PrmBufferedIntended | targetcli/ui_backstore_legacy.py:249-256 | the evaluated parameter, off when omitted, as the fileio help text at targetcli/ui_backstore_legacy.py:407-409 documents |
| Common.FileioSizeXorDevice | targetcli/ui_backstore.py:253-256 | the fileio rule holds exactly when one of "size given" and "path is a device" holds |
| Common.Join | targetcli/ui_backstore.py:349-353 | joining no parts gives "", one part gives that part, and two parts give them with the separator between |
| Common.JoinStartsWithFirst | targetcli/ui_backstore.py:352-353 | a join begins with its first part |
| Common.JoinAppend | targetcli/ui_backstore.py:343-350 | joining a list with one more part appended gives the old join, the separator and the new part |
| Common.Map | rtsadmin/ui_target.py:645 | a list comprehension: same length, element by element |
| Common.MapMembership | rtsadmin/ui_target.py:425-426 | a value is in the mapped list exactly when some element maps to it |
| Rtslib.DisplayPath | targetcli/ui_backstore.py:335-338 | "ramdisk" for rd* plugins, else the udev path |
| Rtslib.OtherPluginsIgnored | targetcli/ui_backstore.py:132-133 | backstores of other plugins never change the indexes a plugin sees |
| Rtslib.Driver.DeleteHba | targetcli/ui_backstore_legacy.py:188 | deleting a backstore deletes the storage objects on it and nothing else |
| Rtslib.Driver.CreateHba | targetcli/ui_backstore.py:173 | creating a backstore adds exactly that backstore and no storage object |
| Rtslib.Driver.CreateObject | targetcli/ui_backstore.py:175 | creating a storage object on an existing backstore adds exactly that object and no backstore |
| Rtslib.Driver.DeleteObject | targetcli/ui_backstore.py:98 | deleting a storage object removes exactly that object and leaves the backstores |
| TargetcliBackstore.Names | targetcli/ui_backstore.py:149 | the child names, in order |
| TargetcliBackstore.NamesMembership | targetcli/ui_backstore.py:149-150 | a name is listed exactly when some child has it |
| TargetcliBackstore.LegacyMarkers | targetcli/ui_backstore.py:343-347 | "ADDED SUFFIX" exactly when the listed name differs from the library's, and first then; "SHARED HBA" exactly when the HBA holds more than one object |
| TargetcliBackstore.Problems | targetcli/ui_backstore.py:340-350 | there are no problems exactly when the path is non-empty and there is no legacy marker, and a broken link comes first |
| TargetcliBackstore.StorageObjectSummary | targetcli/ui_backstore.py:332-358 | healthy exactly when there is a path, the child is listed under the library's name and its HBA holds at most one object; a healthy summary is "path status"; otherwise the joined problems, followed by "(path status)" when there is a path |
| TargetcliBackstore.UnhealthySummaryShape | targetcli/ui_backstore.py:352-356 | an unhealthy summary starts with "BROKEN STORAGE LINK" when there is no path; otherwise it starts with "LEGACY: " and ends with "(path status)" |
| TargetcliBackstore.DeletedIndexIsReused | targetcli/ui_backstore.py:91-103 | deleting a backstore frees its index, so the next create of that plugin reuses it when every lower index is taken |
| TargetcliBackstore.BackstoreNode.constructor | targetcli/ui_backstore.py:51-61 | the new node is valid and lists exactly the storage objects of its plugin |
| TargetcliBackstore.BackstoreNode.Refresh | targetcli/ui_backstore.py:56-61 | afterwards the children are exactly the plugin's storage objects, each under its own name |
| TargetcliBackstore.BackstoreNode.Summary | targetcli/ui_backstore.py:63-69 | "N Storage Object(s)" with no health verdict |
| TargetcliBackstore.BackstoreNode.NextHbaIndex | targetcli/ui_backstore.py:129-146 | the least index in [0, 1048576) unused by this plugin; "no available index" exactly when all are used |
| TargetcliBackstore.BackstoreNode.AssertAvailableName | targetcli/ui_backstore.py:148-152 | fails exactly when some child already has the name |
| TargetcliBackstore.BackstoreNode.CreateOn | targetcli/ui_backstore.py:173-182 | the HBA takes the least free index and is new; on any refusal the driver and the node are as before (the HBA is rolled back); on success exactly one HBA and one object are added and the node is listed last |
| TargetcliBackstore.BackstoreNode.CreatePscsi | targetcli/ui_backstore.py:162-182 | a name in use changes nothing; otherwise the create-with-rollback outcome for a pass-through object |
| TargetcliBackstore.BackstoreNode.CreateRdMcp | targetcli/ui_backstore.py:192-218 | a name in use changes nothing; otherwise the create-with-rollback outcome for a ramdisk object |
| TargetcliBackstore.BackstoreNode.CreateFileio | targetcli/ui_backstore.py:228-285 | the name is checked first; a size together with a device path, or neither, is refused with nothing created; otherwise the create-with-rollback outcome, with the evaluated buffered flag (on when omitted) |
| TargetcliBackstore.BackstoreNode.CreateBlock | targetcli/ui_backstore.py:295-311 | a name in use changes nothing; otherwise the create-with-rollback outcome for a block device |
| TargetcliBackstore.BackstoreNode.Delete | targetcli/ui_backstore.py:80-103 | an unknown name changes nothing; a known one deletes that storage object, deletes its HBA exactly when nothing is left on it, and refreshes |
| TargetcliBackstore.BackstoreNode.CompleteDelete | targetcli/ui_backstore.py:105-127 | for "name", the child names starting with the text, with the single-match trailing space; for any other parameter, nothing |
| TargetcliLegacy.HbaNames | targetcli/ui_backstore_legacy.py:206 | the backstore node names, in order |
| TargetcliLegacy.ObjectNames | targetcli/ui_backstore_legacy.py:300 | the storage-object node names, in order |
| TargetcliLegacy.StorageObjectSummary | targetcli/ui_backstore_legacy.py:477-486 | healthy exactly when there is a path; then "path status", else "BROKEN STORAGE LINK" |
| RtsadminBackstore.StorageObjectSummary | rtsadmin/ui_backstore.py:480-489 | as in the legacy tree: healthy exactly when there is a path; then "path status", else "BROKEN STORAGE LINK" |
| TargetcliLegacy.CompleteCreate | targetcli/ui_backstore_legacy.py:146-168 | the five plugin names starting with the text, with the single-match trailing space; for any other parameter, nothing |
| TargetcliLegacy.CompleteBackstoreDelete | targetcli/ui_backstore_legacy.py:193-216 | the listed backstore names starting with the text, with the single-match trailing space |
| TargetcliLegacy.CompleteObjectDelete | targetcli/ui_backstore_legacy.py:287-310 | the listed storage-object names starting with the text, with the single-match trailing space |
| TargetcliLegacy.BackstoresNode.Refresh | targetcli/ui_backstore_legacy.py:27-40 | the children are exactly the backstores of the five known plugins |
| TargetcliLegacy.BackstoresNode.Summary | targetcli/ui_backstore_legacy.py:42-48 | "N Backstore(s) (legacy mode)" |
| TargetcliLegacy.BackstoresNode.Create | targetcli/ui_backstore_legacy.py:104-142 | an exhausted range, an unknown plugin or a library refusal changes nothing; otherwise exactly one new backstore of that plugin at its least free index |
| TargetcliLegacy.BackstoresNode.Delete | targetcli/ui_backstore_legacy.py:170-191 | an unknown name changes nothing; a known one deletes that backstore with its storage objects and refreshes |
| TargetcliLegacy.BackstoreNode.Refresh | targetcli/ui_backstore_legacy.py:227-230 | the children are exactly the storage objects on this backstore |
| TargetcliLegacy.BackstoreNode.Summary | targetcli/ui_backstore_legacy.py:232-238 | "N Storage Object(s)" |
| TargetcliLegacy.BackstoreNode.CreateStorage | targetcli/ui_backstore_legacy.py:325-330 | the library's refusal changes nothing; acceptance adds exactly that object to the driver and the node |
| TargetcliLegacy.BackstoreNode.CreatePscsi | targetcli/ui_backstore_legacy.py:316-331 | a pass-through object on the device; on acceptance, exactly that object (name, this backstore, configuration, and the library's udev path and status) is added to the driver and listed last, and the backstores stay; a refusal changes nothing |
| TargetcliLegacy.BackstoreNode.CreateRdDr | targetcli/ui_backstore_legacy.py:337-361 | a ramdisk object of the size, with the evaluated WWN flag; on acceptance, exactly that object (name, this backstore, configuration, and the library's udev path and status) is added to the driver and listed last, and the backstores stay; a refusal changes nothing |
| TargetcliLegacy.BackstoreNode.CreateRdMcp | targetcli/ui_backstore_legacy.py:367-391 | a ramdisk object of the size, with the evaluated WWN flag; on acceptance, exactly that object (name, this backstore, configuration, and the library's udev path and status) is added to the driver and listed last, and the backstores stay; a refusal changes nothing |
| TargetcliLegacy.BackstoreNode.CreateFileio | targetcli/ui_backstore_legacy.py:397-445 | a size together with a device path, or neither, is refused with no change; otherwise a file-backed object whose buffered flag is the truthiness of the raw argument, as written; on acceptance, exactly that object (name, this backstore, configuration, and the library's udev path and status) is added to the driver and listed last, and the backstores stay; a refusal changes nothing |
| TargetcliLegacy.BackstoreNode.CreateIblock | targetcli/ui_backstore_legacy.py:451-465 | a block-device object, with the evaluated WWN flag; on acceptance, exactly that object (name, this backstore, configuration, and the library's udev path and status) is added to the driver and listed last, and the backstores stay; a refusal changes nothing |
| TargetcliLegacy.BackstoreNode.Delete | targetcli/ui_backstore_legacy.py:265-285 | an unknown name changes nothing; a known one deletes only that object, and the backstore stays |
| RtsadminBackstore.BackstoresNode.Refresh | rtsadmin/ui_backstore.py:38-51 | the children are exactly the backstores of the five known plugins |
| RtsadminBackstore.BackstoresNode.Summary | rtsadmin/ui_backstore.py:53-59 | "N Backstore(s)", plural only above one |
| RtsadminBackstore.BackstoresNode.Create | rtsadmin/ui_backstore.py:116-154 | an exhausted range, an unknown plugin or a library refusal changes nothing; otherwise exactly one new backstore at the plugin's least free index |
| RtsadminBackstore.BackstoresNode.Delete | rtsadmin/ui_backstore.py:180-202 | the loop deletes the first child with the name, with its storage objects; no match changes nothing |
| RtsadminBackstore.BackstoresNode.CompleteCreate | rtsadmin/ui_backstore.py:156-178 | the five plugin names starting with the text, with the single-match trailing space; for any other parameter, nothing |
| RtsadminBackstore.BackstoresNode.CompleteDelete | rtsadmin/ui_backstore.py:204-226 | the listed backstore names starting with the text, with the single-match trailing space |
| RtsadminBackstore.BackstoreNode.Refresh | rtsadmin/ui_backstore.py:239-242 | the children are exactly the storage objects on this backstore |
| RtsadminBackstore.BackstoreNode.Summary | rtsadmin/ui_backstore.py:244-250 | "N Storage Object(s)", plural only above one |
| RtsadminBackstore.BackstoreNode.CreateStorage | rtsadmin/ui_backstore.py:337-341 | the library's refusal changes nothing; acceptance adds exactly that object |
| RtsadminBackstore.BackstoreNode.CreatePscsi | rtsadmin/ui_backstore.py:328-341 | a pass-through object on the device; on acceptance, exactly that object (name, this backstore, configuration, and the library's udev path and status) is added to the driver and listed last, and the backstores stay; a refusal changes nothing |
| RtsadminBackstore.BackstoreNode.CreateRdDr | rtsadmin/ui_backstore.py:347-369 | a ramdisk object of the size, with the evaluated WWN flag; on acceptance, exactly that object (name, this backstore, configuration, and the library's udev path and status) is added to the driver and listed last, and the backstores stay; a refusal changes nothing |
| RtsadminBackstore.BackstoreNode.CreateRdMcp | rtsadmin/ui_backstore.py:375-397 | a ramdisk object of the size, with the evaluated WWN flag; on acceptance, exactly that object (name, this backstore, configuration, and the library's udev path and status) is added to the driver and listed last, and the backstores stay; a refusal changes nothing |
| RtsadminBackstore.BackstoreNode.CreateFileio | rtsadmin/ui_backstore.py:403-448 | a size together with a device path, or neither, is refused with no change; otherwise a file-backed object whose buffered flag is the truthiness of the raw argument, as written; on acceptance, exactly that object (name, this backstore, configuration, and the library's udev path and status) is added to the driver and listed last, and the backstores stay; a refusal changes nothing |
| RtsadminBackstore.BackstoreNode.CreateIblockAsWritten | rtsadmin/ui_backstore.py:461-463 | as written, every call fails on the missing `prm_wwn` and changes nothing |
| RtsadminBackstore.BackstoreNode.CreateIblock | rtsadmin/ui_backstore.py:454-466 | as intended: a block-device object, with the evaluated WWN flag; on acceptance, exactly that object (name, this backstore, configuration, and the library's udev path and status) is added to the driver and listed last, and the backstores stay; a refusal changes nothing |
| RtsadminBackstore.BackstoreNode.Delete | rtsadmin/ui_backstore.py:277-298 | the loop deletes the first object with the name, and the backstore stays; no match changes nothing |
| RtsadminBackstore.BackstoreNode.CompleteDelete | rtsadmin/ui_backstore.py:300-322 | the listed storage-object names starting with the text, with the single-match trailing space |
| RtsadminTarget.TpgNodeName | rtsadmin/ui_target.py:283 | a TPG node's name starts with "tpgt" |
| RtsadminTarget.TpgNodeNameTag | rtsadmin/ui_target.py:264 | cutting "tpgt" off a TPG node's name gives the tag's digits |
| RtsadminTarget.TagText | rtsadmin/ui_target.py:264 | a TPG node name with "tpgt" cut off is the tag's digits |
| RtsadminTarget.FabricSummary | rtsadmin/ui_target.py:46-52 | "N Target(s)", plural only above one, with no health verdict |
| RtsadminTarget.Available | rtsadmin/ui_target.py:88-91 | exactly the listed WWNs no target uses |
| RtsadminTarget.FabricCompleteCreate | rtsadmin/ui_target.py:74-98 | with an allowed-WWN list, the listed WWNs that start with the text and that no target uses, with the single-match trailing space; without a list, nothing |
| RtsadminTarget.FabricCompleteDelete | rtsadmin/ui_target.py:114-135 | the targets' WWNs starting with the text, with the single-match trailing space |
| RtsadminTarget.MappedLunSummary | rtsadmin/ui_target.py:507-522 | "lun<n> (ro)" exactly when write-protected and "lun<n> (rw)" otherwise, eight characters longer than the digits; a broken link is unhealthy |
| RtsadminTarget.NodeAclSummary | rtsadmin/ui_target.py:453-459 | "N Mapped LUN(s)" |
| RtsadminTarget.LunSummary | rtsadmin/ui_target.py:666-683 | "<plugin><index>/<name> (<path>)", exactly as long as those parts with the separators, with "ramdisk" for rd* plugins; a broken storage link is unhealthy |
| RtsadminTarget.LunRequestAsWritten | rtsadmin/ui_target.py:582-587 | as written, a path naming no node aborts the command (the lookup raises, and only AttributeError is caught); a node that is not a storage object is logged as a wrong path and its path text is handed to LUN() |
| RtsadminTarget.UnresolvedPathReachesLibrary | rtsadmin/ui_target.py:582-587 | the concrete input: the path of a backstore node, not of a storage object, is handed to LUN() as text |
| RtsadminTarget.Tpg.LunNumbers | rtsadmin/ui_target.py:561 | exactly the numbers of the TPG's LUNs |
| RtsadminTarget.Tpg.constructor | rtsadmin/ui_target.py:231 | a new TPG is disabled and empty |
| RtsadminTarget.Tpg.Summary | rtsadmin/ui_target.py:294-301 | the nexus when there is one, else "enabled" exactly when enabled and "disabled" exactly when not; always healthy |
| RtsadminTarget.Tpg.Enable | rtsadmin/ui_target.py:303-315 | the TPG ends enabled, reports "already" exactly when it was, and nothing else changes |
| RtsadminTarget.Tpg.Disable | rtsadmin/ui_target.py:317-329 | the TPG ends disabled, reports "already" exactly when it was, and nothing else changes |
| RtsadminTarget.Tpg.LunsSummary | rtsadmin/ui_target.py:540-546 | "N LUN(s)" |
| RtsadminTarget.Tpg.AclsSummary | rtsadmin/ui_target.py:366-372 | "N ACL(s)" |
| RtsadminTarget.Tpg.PortalsSummary | rtsadmin/ui_target.py:701-707 | "N Portal(s)" |
| RtsadminTarget.Tpg.ChooseLun | rtsadmin/ui_target.py:560-578 | as intended: an omitted LUN is the least free number in [0, 1048576), and "no available LUN" exactly when all are used; a malformed one is refused; a given one is accepted exactly when it is not negative |
| RtsadminTarget.Tpg.ChooseLunAsWritten | rtsadmin/ui_target.py:560-570 | as written: a given or malformed LUN is handled as intended, and a LUN the scan finds is the least free one |
| RtsadminTarget.Tpg.ExhaustedLunScanRaises | rtsadmin/ui_target.py:560-570 | with the LUN omitted and every number in [0, 1048576) in use, the source raises on formatting the leaked LUN where the corrected choice reports no available LUN; in every other case the two agree |
| RtsadminTarget.Tpg.CreateLun | rtsadmin/ui_target.py:548-589 | the chosen LUN is added with its storage object; an allocation error, a path naming no node, a node that is not a storage object, a taken number or a library refusal leaves the LUNs unchanged |
| RtsadminTarget.Tpg.CompleteLunDelete | rtsadmin/ui_target.py:632-653 | the LUN numbers, as text, starting with the text, with the single-match trailing space |
| RtsadminTarget.Tpg.CompleteAclDelete | rtsadmin/ui_target.py:412-433 | the ACLs' initiator WWNs starting with the text, with the single-match trailing space |
| RtsadminTarget.Tpg.CreatePortal | rtsadmin/ui_target.py:709-749 | an omitted address is the main address (refused when there is none); a given one must be an interface address; the port defaults to 3260 and must be an integer; on success exactly that portal is added, otherwise nothing |
| RtsadminTarget.Tpg.PortalDeleteMatches | rtsadmin/ui_target.py:799-827 | addresses, only those with the given port when one is typed, without repeats; ports of the given address, none for an unknown one; or else all ports, without repeats; each filtered by the text |
| RtsadminTarget.Tpg.CompletePortalDelete | rtsadmin/ui_target.py:787-832 | the same matches with the single-match trailing space: with it undone, exactly those addresses or ports, with the same freedom from repeats, and a single completion ends with a space |
| RtsadminTarget.PortalsExtended | rtsadmin/ui_target.py:804-808 | adding a portal adds exactly its address, its port at that address, and its port |
| RtsadminTarget.GatherPortals | rtsadmin/ui_target.py:802-808 | the loop builds the distinct addresses, the ports of each address and the distinct ports, exactly those of the portals |
| RtsadminTarget.FilterKeepsDistinct | rtsadmin/ui_target.py:810-827 | filtering keeps the addresses and ports free of repeats |
| RtsadminTarget.Target.Tags | rtsadmin/ui_target.py:210 | exactly the tags of the target's TPGs |
| RtsadminTarget.Target.Summary | rtsadmin/ui_target.py:185-197 | "INVALID WWN" and unhealthy for a WWN the fabric rejects, else "N TPG(s)" with no verdict |
| RtsadminTarget.Target.ChooseTag | rtsadmin/ui_target.py:209-229 | an omitted tag is the least free tag in [1, 1048576), failing exactly when all are used; a malformed one is refused; a given one is accepted exactly when it is at least 1 |
| RtsadminTarget.Target.CreateTpg | rtsadmin/ui_target.py:199-235 | a new disabled, empty TPG with the chosen tag, enabled when auto-enable is set; any error leaves the TPG list unchanged |
| RtsadminTarget.Target.CompleteTpgDelete | rtsadmin/ui_target.py:251-272 | the tags' digits starting with the text, with the single-match trailing space |
| RtsadminTarget.SingleTpgTargetSummary | rtsadmin/ui_target.py:343-347 | "INVALID WWN" and unhealthy for a rejected WWN, else the TPG's own summary |
| RtsadminTarget.ObjectPathsMembership | rtsadmin/ui_target.py:603-608 | a path is collected exactly when some backstore lists an object under it |
| RtsadminTarget.CompleteLunCreate | rtsadmin/ui_target.py:591-615 | the nested loop collects the object paths; the result is the "/backstores/<backstore>/<object>" paths starting with the text, with the single-match trailing space |
| RtsadminTarget.CompletePortalCreate | rtsadmin/ui_target.py:751-772 | the interface addresses starting with the text, with the single-match trailing space |

## Left out

- The library, the kernel and configfs are reduced to the two sets of
  `Rtslib.Driver`. The library's answers are inputs: a creation `Reply`, a
  `failure` string. The shell's own node lookup (`get_node`) of a
  storage-object path is an input too, `NodeLookup`: no node, a node that is
  not a storage object, or a storage object.
- Two library behaviours are assumed. A second TPG with the same tag, or a
  second LUN with the same number, is refused (`TagInUse`, `LunInUse`). A
  newly created TPG is disabled.
- The block-device and disk-partition probes, the fabric module's WWN
  check, the interface addresses and the main address are boolean or list
  inputs (`isDev`, `wwnValid`, `ethIps`, `mainIp`).
- Python's `int()` grammar is reduced to `IntArg`: omitted, malformed or a
  number. The shell's own parameter-type errors in `ui_eval_param` are left
  out, and `BoolArg` carries the evaluated value.
- Size strings are opaque; their parsing happens inside the library.
- Display-name suffixing is left out. Only the mismatch between the listed
  name and the library's name is modelled, as the "ADDED SUFFIX" marker.
- Python 2 dictionary and set iteration order (the portal-delete dict and
  set, `RTSRoot().backstores`, `storage_objects`) is modelled as order of
  first appearance. Refresh takes objects in an unspecified order, so the
  `Refreshed()` predicates state membership, not order.
- After a delete, all three trees refresh a node above the one that deleted.
  A backstore delete refreshes the parent, the root
  (targetcli/ui_backstore_legacy.py:191, rtsadmin/ui_backstore.py:198). A
  storage-object delete refreshes the root (targetcli/ui_backstore.py:103,
  targetcli/ui_backstore_legacy.py:285, rtsadmin/ui_backstore.py:294). The
  model refreshes only the node that performed the delete.
- Logging, `assert_root`, the `version` and `info` commands, and console
  output are left out. Each logged error becomes an `Err` or `Fail` value.
- The deletes of targets, TPGs, ACLs, mapped LUNs, LUNs and portals, and the
  creates of targets, ACLs and mapped LUNs, are left out; their completions
  are modelled. The target create and the deletes hand the call to the
  library. The ACL create first checks the WWN against the fabric's WWN type
  ("'%s' is not a valid %s WWN.") and reports the library's RTSLibError
  (rtsadmin/ui_target.py:384-393). The mapped-LUN create parses both LUN
  numbers with `int()` and reports "Incorrect LUN value." on failure
  (rtsadmin/ui_target.py:472-477). Neither check is modelled.
- The target tree's refreshes are left out: `UIFabricModule.refresh`,
  `UIMultiTPGTarget.refresh`, `UINodeACLs.refresh`, `UINodeACL.refresh`,
  `UILUNs.refresh` and `UIPortals.refresh` (rtsadmin/ui_target.py:36-44,
  180-183, 361-364, 448-451, 535-538, 696-699). The fabric, ACL-list,
  LUN-list and portal-list nodes are not classes of the model. Their count
  summaries read the library's lists (`tpgs`, `luns`, `acls`, `portals`,
  mapped LUNs, and a `targetCount` input) instead of `len(self._children)`,
  on the assumption that each node's children mirror that list one to one.
- `UIPortal.summary` is a constant. It is left out.
- UITarget's constructor, which wraps TPG 1 and enables it, is left out.
  `SingleTpgTargetSummary` models its summary.
- `UIBackstores.refresh` in targetcli is left out. It only creates the four
  plugin nodes of `TargetcliBackstore.PluginNodes`.
- TargetcliLegacy.BackstoreNode.CreatePscsi, RtsadminBackstore.BackstoreNode.CreatePscsi and the other storage-object creates in these two trees require the node's plugin. Each create method belongs to the subclass of that plugin, so no other node can call it.
- RtsadminTarget.Tpg.CreateLun: checks the storage-object path after the LUN number, as the source does. It models the corrected behaviour: a node that is not a storage object stops the command (see Findings). A path naming no node is an error in both.
- The legacy and rtsadmin fileio creates hand the library the raw buffered argument. The library is assumed to read it by truthiness, so the stored flag is `Truthy(PrmBufferedAsWritten(buffered))`.

## Findings

| source | as written | input that shows it | evidently intended | confidence | as-written member | corrected member |
|---|---|---|---|---|---|---|
| targetcli/ui_backstore.py:136-142 (also targetcli/ui_backstore_legacy.py:111-117 and rtsadmin/ui_backstore.py:122-128) | `backstore_index` is assigned only inside the scan and never initialised, so the `is None` test after it raises UnboundLocalError when the scan finds nothing | all 1048576 indexes of one plugin in use | initialise it to None, so a full range gives "Cannot find an available backstore index." | high, not executed | Allocation.FullRangeRaises | Allocation.ScanCorrected |
| targetcli/ui_backstore_legacy.py:249-256 (also rtsadmin/ui_backstore.py:261-268) | `prm_buffered` evaluates the parameter into an unused variable and returns the raw argument | `buffered=false` hands the library the string "false", which is truthy, so buffered mode is turned on | return the evaluated boolean, off when omitted as the help text at targetcli/ui_backstore_legacy.py:407-409 and rtsadmin/ui_backstore.py:413-415 documents (targetcli/ui_backstore.py:73 defaults to True instead, against its own help text at 235-237) | high, not executed | Common.BufferedAsWrittenDisagrees | Common.PrmBufferedIntended |
| rtsadmin/ui_backstore.py:461-463 | the iblock create calls `self.prm_wwn`, which no node class defines | any `create` on an iblock backstore node | call `prm_gen_wwn`, as the other creates do | high, not executed | RtsadminBackstore.BackstoreNode.CreateIblockAsWritten | RtsadminBackstore.BackstoreNode.CreateIblock |
| rtsadmin/ui_target.py:582-587 | a path whose node is not a storage object is logged as "Wrong storage object path." and the command goes on: the path text is handed to LUN() in place of a storage object | `create /backstores/iblock0` (a backstore node, which has no storage object) | stop the command after the error | medium, not executed | RtsadminTarget.UnresolvedPathReachesLibrary | RtsadminTarget.Tpg.CreateLun |
| rtsadmin/ui_target.py:560-570 | the comprehension `[lun.lun for lun in self.tpg.luns]` at 561 rebinds `lun` to the last LUN object (Python 2 leaks comprehension variables), so after a scan that finds nothing `lun is None` is false and `"Selected LUN %d." % lun` raises TypeError; "Cannot find an available LUN." is never logged | `create` with the LUN omitted on a TPG whose LUNs use every number in [0, 1048576) | test the scan's own result, so a full range gives "Cannot find an available LUN." | medium, not executed | RtsadminTarget.Tpg.ExhaustedLunScanRaises | RtsadminTarget.Tpg.ChooseLun |
