# vtkPVSource pipeline bookkeeping and vtkSMDataTypeQueryDomain, in Dafny

This project models the self-contained logic of two ParaView classes:

- **vtkPVSource** is the client-side controller of one pipeline stage.
  - Each source keeps an array of input slots (`PVInputs`) and a duplicate-free list of the sources that consume it (`PVConsumers`).
  - Setting an input slot also updates the consumer lists of the old and the new occupant. `RemoveAllPVInputs` empties every slot this way and then releases the array.
  - The class also holds some flag state: name and label with their short-circuiting setters, the accept-button "modified" flag, `Accept`, the prototype instance count and clone naming, and find-or-create of named input properties.
  - It also has pure decision rules: `IsDeletable`, the multi-process flag rule and the proxy-manager group choice.
- **vtkSMDataTypeQueryDomain** caches the data type of the dataset on its "Input" property. It publishes that type through element 0 of an int-vector property and fires `DomainModified` only when the type changes.

Layout:

- `pv_source_links.dfy` (module `PVSourceLinks`): functions that specify the two hand-managed arrays. `Appended` and `Removed` specify adding and removing a consumer. `Resized`, `Placed` and `SlotAt` specify the input slots, and `Occupied` counts the occupied slots. The lemmas state what these functions mean.
- `pv_source_rules.dfy` (module `PVSourceRules`): the pure rules. These are the processor-count rule, the registration group, and the clone name (`"%s%d"`, with a decimal round trip).
- `pv_source.dfy` (module `PVSource`): `class Source` holds the fields the C++ methods update. Its methods are proved against the functions above.
- `data_type_query_domain.dfy` (module `DataTypeQueryDomain`): `class Property` and `class Domain`.
- `wrappers.dfy`: `Option`, the model of a pointer or C string that may be NULL.

Modelling conventions:

- `vtkObject::Modified()` is a per-object counter `mtime` that goes up by one.
- `DomainModified()` is the counter `modifiedEvents`.
- C arrays with an explicit count are sequences. The methods still copy them element by element, as the C++ does. `SetNumberOfPVInputs` fills a freshly allocated `array`.
- A NULL `PVInputs` pointer is the flag `hasInputArray`.
- Every method's frame names exactly the fields it may change. `SetNthPVInput` changes this source's slots and the consumer lists of the old and the new occupant, and nothing else.
- The code shows that a consumer list does not count how many slots a source occupies. So there is no global "consumes ⇔ is an input" invariant. Each operation instead states what it does to the lists it touches, and `StaleConsumerLink` shows a link dropped while a second slot still holds the source. The opposite also happens: when `SetNumberOfPVInputs` shrinks the array, it drops occupied slots without calling `RemovePVConsumer` (GUI/Client/vtkPVSource.cxx:1633-1643). A source dropped that way still lists this one as a consumer. For example, filling slot 0 and then setting the count to 0 leaves the upstream list holding the downstream source.

## Model

| member | source | states |
|---|---|---|
| PVSource.Source.constructor | GUI/Client/vtkPVSource.cxx:74-160 | A new source has no input array, no consumers, no name or label, a count of 0, is not permanent and has multi-process flag 2 |
| PVSource.Source.IsPVConsumer | GUI/Client/vtkPVSource.cxx:370-381 | The linear search answers true exactly when `c` is in the consumer list |
| PVSource.Source.AddPVConsumer | GUI/Client/vtkPVSource.cxx:323-341 | The list becomes `Appended(old, c)`: unchanged if `c` was present, else `c` goes last; the list stays duplicate-free and contains `c` |
| PVSource.Source.RemovePVConsumer | GUI/Client/vtkPVSource.cxx:344-367 | The list becomes `Removed(old, c)`: `c` is gone, the list stays duplicate-free, and it is one shorter when `c` was present (unchanged otherwise) |
| PVSource.Source.GetPVConsumer | GUI/Client/vtkPVSource.cxx:384-391 | Null exactly for an index at or past the count, otherwise the consumer at that index |
| PVSource.Source.IsDeletable | GUI/Client/vtkPVSource.cxx:1582-1590 | 1 exactly when `IsPermanent` is 0 and nothing consumes the source, else 0 |
| PVSource.Source.GetNumberOfProcessorsValid | GUI/Client/vtkPVSource.cxx:2103-2132 | Applies the processor-count rule to the source's own multi-process flag |
| PVSource.Source.GetNthPVInput | GUI/Client/vtkPVSource.cxx:1748-1756 | Null for an index at or past the count, otherwise that slot's occupant, which is among the input sources |
| PVSource.Source.SetNumberOfPVInputs | GUI/Client/vtkPVSource.cxx:1612-1651 | No-op when the count is unchanged. Otherwise the slots become `Resized(old, num, null)`: the first min(old, num) occupants are kept, new slots are null, and Modified fires once |
| PVSource.Source.SetNthPVInput | GUI/Client/vtkPVSource.cxx:1655-1690 | A negative index changes nothing. Otherwise the slots become `Placed(old, idx, pvs, null)`: the array grows to idx+1 if needed and only slot idx changes. Writing the current occupant back changes no consumer list. Otherwise the old occupant's list becomes `Removed(.., this)` and the new one's `Appended(.., this)`. Modified fires once for growing and once for a real change |
| PVSource.Source.DetachSlot | GUI/Client/vtkPVSource.cxx:1698-1701 | One pass of the RemoveAllPVInputs loop: slot idx becomes null, its occupant drops this source, and the cumulative `Detached` invariant moves one slot on |
| PVSource.Source.DetachedComplete | GUI/Client/vtkPVSource.cxx:1698-1701 | Once every slot has been cleared, each source that was an input has exactly this source removed from its consumer list |
| PVSource.Source.RemoveAllPVInputs | GUI/Client/vtkPVSource.cxx:1693-1745 | With an array: afterwards there are no slots and no array. Every source that was an input has exactly this source removed from its consumer list. `mtime` rises by the number of occupied slots plus one. Without an array nothing changes |
| PVSource.Source.SetName | GUI/Client/vtkPVSource.cxx:984-1015 | Returns early when old and new names are both set and equal. Otherwise it stores the argument (possibly NULL) and fires Modified once |
| PVSource.Source.SetLabelNoTrace | GUI/Client/vtkPVSource.cxx:1066-1087 | Same short-circuit rule as SetName, for the label |
| PVSource.Source.GetLabel | GUI/Client/vtkPVSource.cxx:1018-1028 | An unset label is first initialised from the name. A set label is returned untouched |
| PVSource.Source.SetLabel | GUI/Client/vtkPVSource.cxx:1040-1044 | Marks the label as set by the user, then sets it with the short-circuit rule |
| PVSource.Source.SetLabelOnce | GUI/Client/vtkPVSource.cxx:1031-1037 | Does nothing once the user has set the label; otherwise behaves as SetLabelNoTrace |
| PVSource.Source.SetAcceptButtonColorToModified | GUI/Client/vtkPVSource.cxx:2039-2050 | Afterwards the button is red, whether or not it was before (idempotent) |
| PVSource.Source.SetAcceptButtonColorToUnmodified | GUI/Client/vtkPVSource.cxx:2053-2075 | Afterwards the button is not red, whether or not it was before (idempotent) |
| PVSource.Source.Accept | GUI/Client/vtkPVSource.cxx:1183-1300 | A no-op unless the button is red. Otherwise it clears the flag, and the source is initialised afterwards: after creating its output (1295), or through DeleteCallback when no output can be obtained (1228, 1397-1403) |
| PVSource.Source.GetInputProperty | GUI/Client/vtkPVSource.cxx:2013-2035 | Returns a property with the given name from the list. The list is unchanged when the name is already there; otherwise a fresh property is appended. Names stay unique |
| PVSource.Source.ClonePrototype | GUI/Client/vtkPVSource.cxx:2191-2331 | A clone exists exactly when there is an application, the name is non-empty and the proxy was created. It is fresh, named `CloneName(name, count)`, has the same input-property names, and inherits the count. The prototype's count then rises by one. On failure the result is null and the count is unchanged |
| PVSource.FeedIntoTwoSlots | GUI/Client/vtkPVSource.cxx:1655-1690 | Putting one source into slots 0 and 1 fills both and lists the downstream source once among its consumers |
| PVSource.StaleConsumerLink | GUI/Client/vtkPVSource.cxx:1675-1679 | A source in slots 0 and 1 loses its consumer link when slot 0 is cleared, while slot 1 still holds it, and it then counts as deletable |
| PVSourceLinks.AppendedFacts | GUI/Client/vtkPVSource.cxx:323-341 | Appending keeps the list duplicate-free, always contains `c`, is a no-op when `c` was present, and otherwise adds `c` after the unchanged old entries |
| PVSourceLinks.RemovedMembership | GUI/Client/vtkPVSource.cxx:357-364 | After removing `c`, `x` is present exactly when it was present before and is not `c` |
| PVSourceLinks.RemovedAbsent | GUI/Client/vtkPVSource.cxx:346-350 | Removing an absent consumer changes nothing |
| PVSourceLinks.RemovedNoDuplicates | GUI/Client/vtkPVSource.cxx:344-367 | Removing keeps a duplicate-free list duplicate-free |
| PVSourceLinks.RemovedSplice | GUI/Client/vtkPVSource.cxx:351-364 | Removing the consumer at position k splices it out: length minus one, the others in their original order |
| PVSourceLinks.RemovedTwice | GUI/Client/vtkPVSource.cxx:1698-1701 | Removing twice equals removing once, as happens when one source fills several slots |
| PVSourceLinks.RemovedUndoesAppended | GUI/Client/vtkPVSource.cxx:323-367 | Adding an absent consumer and removing it again restores the list |
| PVSourceLinks.ResizedFacts | GUI/Client/vtkPVSource.cxx:1623-1636 | The resized array has num slots, keeps the old occupants below min(old, num), and its new slots are null |
| PVSourceLinks.PlacedFacts | GUI/Client/vtkPVSource.cxx:1663-1687 | Writing slot idx sets that slot, keeps every other old slot, and fills any slots added by growing with null |
| PVSourceLinks.OccupiedPrefix | GUI/Client/vtkPVSource.cxx:1698-1701 | Counting one more slot adds one exactly when it is occupied |
| PVSourceLinks.OccupiedBounds | GUI/Client/vtkPVSource.cxx:1698-1701 | At most one Modified per slot, and none exactly when every slot is empty |
| PVSourceRules.NumberOfProcessorsValid | GUI/Client/vtkPVSource.cxx:2103-2132 | No application gives 0. Flag 0 accepts exactly ≤ 1 partition, flag 1 exactly ≠ 1, flag 2 everything, any other flag nothing |
| PVSourceRules.SerialAndParallelFlagsPartition | GUI/Client/vtkPVSource.cxx:2112-2131 | Every partition count ≥ 1 is accepted by exactly one of flags 0 and 1. Flag 2 accepts whatever either accepts |
| PVSourceRules.RegisterProxyGroup | GUI/Client/vtkPVSource.cxx:2164-2183 | "GlyphSources" becomes "glyph_sources" and any other list is used as given. Without a list the group is "filters" exactly when there are input properties, else "sources" |
| PVSourceRules.CreationGroup | GUI/Client/vtkPVSource.cxx:2270-2278 | The clone's proxy is created in "filters" exactly when there are input properties |
| PVSourceRules.RegisterGroupMatchesCreationGroup | GUI/Client/vtkPVSource.cxx:2164-2183 | Without a source list, a clone is registered in the group its proxy was created in |
| PVSourceRules.DecimalString | GUI/Client/vtkPVSource.cxx:2241 | `%d` of a count: non-empty, digits only, no leading zero |
| PVSourceRules.DecimalRoundTrip | GUI/Client/vtkPVSource.cxx:2241 | Reading back the decimal text of n gives n |
| PVSourceRules.DecimalStringInjective | GUI/Client/vtkPVSource.cxx:2241 | Different counts have different decimal texts |
| PVSourceRules.CloneNameParts | GUI/Client/vtkPVSource.cxx:2239-2242 | A non-empty name always yields a clone name. It starts with the name and ends in digits that read back as the count |
| PVSourceRules.CloneNameRefused | GUI/Client/vtkPVSource.cxx:2239-2248 | Cloning is refused exactly when the name is NULL or empty |
| PVSourceRules.CloneNamesDistinct | GUI/Client/vtkPVSource.cxx:2234-2242 | Clones of one prototype at different counts have different names |
| PVSourceRules.CloneNamesOfTwoPrototypesMayCollide | GUI/Client/vtkPVSource.cxx:2235-2237 | The comment at 2235-2236 warns only about prototypes with equal names. Two different names also collide: "Cone1" at count 0 and "Cone" at count 10 give the same name |
| DataTypeQueryDomain.InputDataTypeOf | Remoting/ServerManager/vtkSMDataTypeQueryDomain.cxx:51-52 | The composite-dataset type for composite data, the dataset type otherwise |
| DataTypeQueryDomain.WithFirstFacts | Remoting/ServerManager/vtkSMDataTypeQueryDomain.cxx:56 | Writing element 0 sets it and keeps the other elements. Writing the same value again, or a value already there, changes nothing |
| DataTypeQueryDomain.UpdatedInputDataType | Remoting/ServerManager/vtkSMDataTypeQueryDomain.cxx:39-55 | Unchanged without an Input property or data information, otherwise the type the information names |
| DataTypeQueryDomain.UpdateIdempotent | Remoting/ServerManager/vtkSMDataTypeQueryDomain.cxx:53-58 | A second update on the same input leaves the cached type where the first put it |
| DataTypeQueryDomain.Property.SetElement0 | Remoting/ServerManager/vtkSMDataTypeQueryDomain.cxx:56 | Element 0 of the checked values becomes v |
| DataTypeQueryDomain.Property.SetUncheckedElement0 | Remoting/ServerManager/vtkSMDataTypeQueryDomain.cxx:72 | Element 0 of the unchecked values becomes v |
| DataTypeQueryDomain.Domain.IsInDomain | Remoting/ServerManager/vtkSMDataTypeQueryDomain.cxx:26-34 | 1 exactly when the domain is optional or the property is an int-vector property, else 0 |
| DataTypeQueryDomain.Domain.Update | Remoting/ServerManager/vtkSMDataTypeQueryDomain.cxx:37-59 | Caches `UpdatedInputDataType`. When the type changes it writes element 0 of the domain's property and fires DomainModified exactly once; otherwise it writes nothing and fires nothing |
| DataTypeQueryDomain.Domain.SetDefaultValues | Remoting/ServerManager/vtkSMDataTypeQueryDomain.cxx:62-79 | A non-int-vector property gets 0 and is not written. Otherwise the cached type goes to unchecked element 0 when asked, else to checked element 0, in this model the other vector is left alone, and the superclass's answer is returned |
| DataTypeQueryDomain.Domain.constructor | Remoting/ServerManager/vtkSMDataTypeQueryDomain.cxx:13 | A new domain has fired no DomainModified |
| DataTypeQueryDomain.UpdateTwice | Remoting/ServerManager/vtkSMDataTypeQueryDomain.cxx:53-58 | Two updates on the same input have the effect of one: the same cached type, DomainModified count and element 0 as a single update gives |

## Left out

- Widgets, Tcl `Script(...)` calls, the description frame and the navigation window are widget-toolkit calls. This covers `UpdateDescriptionFrame`, `UpdateNavigationWindow` and the colour scripts of the accept button.
- `AddTraceEntry` and the batch and state scripts are text output.
- Client/server stream messages are calls into the process module and the proxy manager. These are the `RemoveAllInputs` stream and the input-property `RemoveAllProxies` in RemoveAllPVInputs, and the stream in the clone code.
- `Register`/`UnRegister` and `delete[]` are ownership, not list contents. The arrays are sequences.
- PVSource.Source.SetNumberOfPVInputs: a negative count is undefined behaviour in C++ (`new[]` with a negative size), so it is a precondition.
- PVSource.Source.GetNthPVInput and PVSource.Source.GetPVConsumer: a negative index reads before the array, which is undefined behaviour, so it is a precondition.
- PVSource.Source.GetNumberOfProcessorsValid: the partition count of the process module is a parameter, and `None` stands for a missing application.
- PVSource.Source.Accept: only the accept flag and `Initialized` are modelled. The orchestration is external calls: parameter upload, `MarkSourcesForUpdate`, data creation, notebook pages, render module, visibility, current source, and the floating-point camera reset. When no output can be obtained, the C++ runs DeleteCallback. The model keeps only that callback setting `Initialized`. It leaves out the rest of DeleteCallback, as the `DeleteCallback` line below says.
- PVSource.Source.ClonePrototype:
  - Whether the new instance has an application, and whether the proxy manager created the proxy, are parameters.
  - It copies only the input-property names. The other property attributes (`vtkPVInputProperty::Copy`) and the other copied settings are external setters.
  - It leaves out the widget cloning after the count is incremented.
  - The result code (`VTK_OK`/`VTK_ERROR`) is represented by a null or non-null clone.
  - The 1024-byte `tclName` buffer is not modelled: a name longer than about 1000 characters would overflow it in C++.
- `RegisterProxy` itself, `ClonePrototypeInternal`'s proxy registration, `CloneAndInitialize` and `InitializeClone` are proxy-manager calls. Only the group choice is modelled.
- `MarkSourcesForUpdate` and `GatherDataInformation` act through the proxy and the window.
- `DeleteCallback` is left out, apart from setting `Initialized`, because most of the deletion acts on the window, the trace and the proxy. It also does work on the lists that the model does not show. It reads the consumer count and gives up while consumers exist (GUI/Client/vtkPVSource.cxx:1410). It removes this source from the consumer list of every non-null input (GUI/Client/vtkPVSource.cxx:1436-1442), while its own slots keep those sources.
- ParaViewCore/VTKExtensions/Default/vtkImageSimpleSource.h is not part of this model. It is a declaration-only header with no logic in view.
- DataTypeQueryDomain.Property.SetElement0: vtkSMIntVectorProperty is not part of this model. Writing element 0 of an empty vector is modelled as giving it one element. The property's own modified events are not modelled. A checked write is modelled as leaving the unchecked values untouched. The real class may also reset the unchecked values to the checked ones. So `SetDefaultValues`' promise that the other vector is unchanged holds for this model only.
- DataTypeQueryDomain.Domain.Update:
  - `GetRequiredProperty("Input")` and `GetInputDataInformation("Input")` are parameters.
  - The error message for a missing Input property is left out.
  - When the type changes, the C++ calls `SetElement` on the result of `SafeDownCast`. That dereferences null unless the domain's property is an int-vector property, so this is a precondition on that path only.
- DataTypeQueryDomain.Domain.SetDefaultValues: the superclass `vtkSMDomain::SetDefaultValues` is not part of this model, so its answer is a parameter.
- DataTypeQueryDomain.Domain.constructor: the initial `InputDataType` comes from the header, which is not part of this model, so it is a constructor parameter.
- `PrintSelf` is diagnostic output.
- PVSource.Source.ClonePrototype: `PrototypeInstanceCount` is an unbounded `nat`. The C `int` overflow of the increment at vtkPVSource.cxx:2331 is not modelled.
- PVSource.Source.SetNthPVInput: the C `int` overflow of `idx + 1` at vtkPVSource.cxx:1666 is not modelled, because indices are unbounded integers.
- PVSource.Source.AddPVConsumer and PVSource.Source.IsPVConsumer: the C++ accepts a NULL consumer (vtkPVSource.cxx:323, 370). The model's parameter type `Source` excludes it. Every caller in the modelled code passes `this`, which is never NULL.
- The `vtkErrorMacro` messages at vtkPVSource.cxx:1659, 2229, 2245 and 2284 are diagnostic output and are dropped. The error paths themselves are modelled.
- The `vtkErrorMacro` message at vtkSMDataTypeQueryDomain.cxx:67 is dropped in the same way. SetDefaultValues still returns 0 there.
