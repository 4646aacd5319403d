/**
 * The list-maintenance and flag state of vtkPVSource, the GUI controller of
 * one stage of a visualization pipeline. Each source keeps an array of input
 * slots (PVInputs) and a duplicate-free list of the sources that consume its
 * output (PVConsumers); setting an input of one source updates the consumer
 * lists of the old and the new input. The source also keeps its name and
 * label, the accept-button flag, the number of clones taken from it as a
 * prototype and its named input properties.
 *
 * vtkObject::Modified() is modelled by `mtime`, which it increments by one.
 */
module PVSource {
  import opened Wrappers
  import opened PVSourceLinks
  import opened PVSourceRules

  /** The named input descriptions of a source (vtkPVInputProperty); only the name is modelled. */
  class InputProperty {
    const name: string

    constructor (name: string)
      ensures this.name == name
    {
      this.name := name;
    }
  }

  function Names(ps: seq<InputProperty>): (r: seq<string>)
    ensures |r| == |ps| && forall k :: 0 <= k < |ps| ==> r[k] == ps[k].name
  {
    seq(|ps|, k requires 0 <= k < |ps| => ps[k].name)
  }

  /** The sources whose consumer list a call may change: `s` itself, or nothing for null. */
  function Only(s: Source?): set<Source> {
    if s == null then {} else {s}
  }

  /** The setters of Name and Label return early only when both old and new value are set and equal. */
  predicate SameString(current: Option<string>, arg: Option<string>) {
    current.Some? && arg.Some? && current.value == arg.value
  }

  class Source {
    var inputs: seq<Source?>            // PVInputs[0 .. NumberOfPVInputs)
    var hasInputArray: bool             // PVInputs != NULL
    var consumers: seq<Source>          // PVConsumers[0 .. NumberOfPVConsumers)
    var mtime: nat
    var name: Option<string>
    var labelText: Option<string>
    var labelSetByUser: bool
    var acceptButtonRed: bool
    var initialized: bool
    var prototypeInstanceCount: nat
    var isPermanent: int
    var multipleProcessFlag: int       // VTKMultipleProcessFlag
    var inputProperties: seq<InputProperty>

    /** The object invariant every operation keeps. */
    ghost predicate Valid()
      reads this
    {
      && ConsumersValid()
      && (!hasInputArray ==> inputs == [])
      && NoDuplicates(Names(inputProperties))
    }

    /** What AddPVConsumer and RemovePVConsumer rely on, and all that they need of another source. */
    ghost predicate ConsumersValid()
      reads this
    {
      NoDuplicates(consumers)
    }

    /** The sources currently held in some input slot. */
    ghost function InputSources(): set<Source>
      reads this
    {
      set s: Source | s in inputs
    }

    constructor ()
      ensures Valid()
      ensures inputs == [] && !hasInputArray && consumers == [] && mtime == 0
      ensures name == None && labelText == None && !labelSetByUser
      ensures !acceptButtonRed && !initialized && prototypeInstanceCount == 0
      ensures isPermanent == 0 && multipleProcessFlag == 2 && inputProperties == []
    {
      inputs, hasInputArray, consumers, mtime := [], false, [], 0;
      name, labelText, labelSetByUser := None, None, false;
      acceptButtonRed, initialized, prototypeInstanceCount := false, false, 0;
      isPermanent, multipleProcessFlag, inputProperties := 0, 2, [];
    }

    // -------------------------------------------------------------------
    // Consumers

    method IsPVConsumer(c: Source) returns (r: bool)
      ensures r <==> c in consumers
    {
      var i := 0;
      while i < |consumers|
        invariant 0 <= i <= |consumers|
        invariant c !in consumers[..i]
      {
        if consumers[i] == c {
          return true;
        }
        assert consumers[..i + 1] == consumers[..i] + [consumers[i]];
        i := i + 1;
      }
      assert consumers[..i] == consumers;
      return false;
    }

    method AddPVConsumer(c: Source)
      requires ConsumersValid()
      modifies this`consumers
      ensures ConsumersValid()
      ensures consumers == Appended(old(consumers), c)
      ensures c in consumers
    {
      var present := IsPVConsumer(c);
      if present {
        return;
      }
      var tmp := consumers;
      var grown: seq<Source> := [];
      var i := 0;
      while i < |tmp|
        invariant 0 <= i <= |tmp|
        invariant grown == tmp[..i]
      {
        grown := grown + [tmp[i]];
        i := i + 1;
      }
      consumers := grown + [c];
      AppendedFacts(tmp, c);
    }

    method RemovePVConsumer(c: Source)
      requires ConsumersValid()
      modifies this`consumers
      ensures ConsumersValid()
      ensures consumers == Removed(old(consumers), c)
      ensures c !in consumers
      ensures c in old(consumers) ==> |consumers| == |old(consumers)| - 1
    {
      var present := IsPVConsumer(c);
      if !present {
        RemovedAbsent(consumers, c);
        return;
      }
      var tmp := consumers;
      var kept: seq<Source> := [];
      var i := 0;
      while i < |tmp|
        invariant 0 <= i <= |tmp|
        invariant kept == Removed(tmp[..i], c)
      {
        assert tmp[..i + 1][..i] == tmp[..i];
        if tmp[i] != c {
          kept := kept + [tmp[i]];
        }
        i := i + 1;
      }
      assert tmp[..i] == tmp;
      consumers := kept;
      var k :| 0 <= k < |tmp| && tmp[k] == c;
      RemovedSplice(tmp, c, k);
      RemovedNoDuplicates(tmp, c);
      RemovedMembership(tmp, c, c);
    }

    function GetPVConsumer(i: int): (r: Source?)
      reads this
      requires 0 <= i
      ensures r == null <==> i >= |consumers|
      ensures r != null ==> r == consumers[i] && r in consumers
    {
      if i >= |consumers| then null else consumers[i]
    }

    /** A source may be deleted only when it is not permanent and nothing consumes it. */
    function IsDeletable(): (r: int)
      reads this
      ensures r == 0 || r == 1
      ensures r == 1 <==> isPermanent == 0 && consumers == []
    {
      if isPermanent != 0 || |consumers| > 0 then 0 else 1
    }

    function GetNumberOfProcessorsValid(partitions: Option<int>): (r: int)
      reads this
      ensures r == NumberOfProcessorsValid(multipleProcessFlag, partitions)
    {
      NumberOfProcessorsValid(multipleProcessFlag, partitions)
    }

    // -------------------------------------------------------------------
    // Inputs

    function GetNthPVInput(idx: int): (r: Source?)
      reads this
      requires 0 <= idx
      ensures idx >= |inputs| ==> r == null
      ensures idx < |inputs| ==> r == inputs[idx]
      ensures r != null ==> r in InputSources()
    {
      if idx >= |inputs| then null else inputs[idx]
    }

    method SetNumberOfPVInputs(num: int)
      requires Valid() && num >= 0
      modifies this`inputs, this`hasInputArray, this`mtime
      ensures Valid()
      ensures num == old(|inputs|) ==> inputs == old(inputs) && hasInputArray == old(hasInputArray)
                                       && mtime == old(mtime)
      ensures num != old(|inputs|) ==> inputs == Resized(old(inputs), num, null) && hasInputArray
                                       && mtime == old(mtime) + 1
    {
      if num == |inputs| {
        return;
      }
      var current := inputs;
      var slots := new Source?[num];
      var idx := 0;
      while idx < num
        modifies slots
        invariant 0 <= idx <= num
        invariant forall k :: 0 <= k < idx ==> slots[k] == null
      {
        slots[idx] := null;
        idx := idx + 1;
      }
      idx := 0;
      while idx < num && idx < |current|
        modifies slots
        invariant 0 <= idx <= num && idx <= |current|
        invariant forall k :: 0 <= k < idx ==> slots[k] == current[k]
        invariant forall k :: idx <= k < num ==> slots[k] == null
      {
        slots[idx] := current[idx];
        idx := idx + 1;
      }
      assert slots[..] == Resized(current, num, null);
      inputs := slots[..];
      hasInputArray := true;
      mtime := mtime + 1;
    }

    method SetNthPVInput(idx: int, pvs: Source?)
      requires Valid()
      requires pvs != null ==> pvs.ConsumersValid()
      requires SlotAt(inputs, idx, null) != null ==> SlotAt(inputs, idx, null).ConsumersValid()
      modifies this`inputs, this`hasInputArray, this`mtime
      modifies Only(SlotAt(inputs, idx, null))`consumers, Only(pvs)`consumers
      ensures Valid() && (pvs != null ==> pvs.ConsumersValid())
      ensures var prev := old(SlotAt(inputs, idx, null)); prev != null ==> prev.ConsumersValid()
      // a negative index is refused
      ensures idx < 0 ==> inputs == old(inputs) && hasInputArray == old(hasInputArray)
                          && mtime == old(mtime)
      ensures idx < 0 && pvs != null ==> pvs.consumers == old(pvs.consumers)
      // the slot is written, growing the array first when needed; no other slot changes
      ensures idx >= 0 ==> inputs == Placed(old(inputs), idx, pvs, null) && hasInputArray
      ensures var prev := old(SlotAt(inputs, idx, null));
        idx >= 0 ==> mtime == old(mtime) + (if idx >= old(|inputs|) then 1 else 0)
                                         + (if prev != pvs then 1 else 0)
      // writing the occupant back changes no consumer list
      ensures var prev := old(SlotAt(inputs, idx, null));
        idx >= 0 && prev == pvs && pvs != null ==> pvs.consumers == old(pvs.consumers)
      // otherwise the old occupant drops this source and the new one lists it
      ensures var prev := old(SlotAt(inputs, idx, null));
        idx >= 0 && prev != pvs && prev != null ==>
          prev.consumers == Removed(old(prev.consumers), this) && this !in prev.consumers
      ensures var prev := old(SlotAt(inputs, idx, null));
        idx >= 0 && prev != pvs && pvs != null ==>
          pvs.consumers == Appended(old(pvs.consumers), this) && this in pvs.consumers
    {
      if idx < 0 {
        return;
      }
      if idx >= |inputs| {
        SetNumberOfPVInputs(idx + 1);
      }
      var prev := inputs[idx];
      if pvs == prev {
        return;
      }
      if prev != null {
        prev.RemovePVConsumer(this);
        inputs := inputs[idx := null];
      }
      if pvs != null {
        pvs.AddPVConsumer(this);
        inputs := inputs[idx := pvs];
      }
      mtime := mtime + 1;
    }

    /**
     * While RemoveAllPVInputs runs: every source of `sources` (whose consumer
     * lists were `orig` when it started) still has its list or has dropped
     * this source from it, and the sources of the first `upto` slots have.
     */
    ghost predicate Detached(sources: set<Source>, before: seq<Source?>, orig: map<Source, seq<Source>>, upto: nat)
      reads sources
    {
      (forall s :: s in sources ==>
         s in orig && s.ConsumersValid() && (s.consumers == orig[s] || s.consumers == Removed(orig[s], this)))
      && forall k :: 0 <= k < upto && k < |before| && before[k] != null ==>
           before[k] in sources && before[k].consumers == Removed(orig[before[k]], this)
    }

    /** One step of RemoveAllPVInputs: SetNthPVInput(idx, null) on a slot the array has. */
    method DetachSlot(idx: nat, ghost sources: set<Source>, ghost before: seq<Source?>,
                      ghost orig: map<Source, seq<Source>>)
      requires Valid() && hasInputArray && idx < |inputs| == |before| && inputs[idx] == before[idx]
      requires Detached(sources, before, orig, idx)
      requires before[idx] != null ==> before[idx] in sources
      modifies this`inputs, this`hasInputArray, this`mtime, Only(inputs[idx])`consumers
      ensures Valid() && hasInputArray && inputs == old(inputs)[idx := null]
      ensures mtime == old(mtime) + (if old(inputs[idx]) == null then 0 else 1)
      ensures Detached(sources, before, orig, idx + 1)
    {
      var prev := inputs[idx];
      PlacedFacts(inputs, idx, null, null);
      SetNthPVInput(idx, null);
      if prev != null {
        RemovedTwice(orig[prev], this);
      }
    }

    /** Once every slot has been cleared, each input source has dropped this source. */
    lemma DetachedComplete(sources: set<Source>, before: seq<Source?>, orig: map<Source, seq<Source>>)
      requires Detached(sources, before, orig, |before|)
      requires forall s :: s in sources ==> s in before
      ensures forall s :: s in sources ==> s.consumers == Removed(orig[s], this) && this !in s.consumers
    {
      forall s | s in sources
        ensures s.consumers == Removed(orig[s], this) && this !in s.consumers
      {
        var k :| 0 <= k < |before| && before[k] == s;
        RemovedMembership(orig[s], this, this);
      }
    }

    /**
     * Empties every slot through SetNthPVInput (so each input source drops
     * this one as a consumer) and then releases the array. Without an array
     * nothing happens.
     */
    method RemoveAllPVInputs()
      requires Valid()
      requires forall s :: s in InputSources() ==> s.ConsumersValid()
      modifies this`inputs, this`hasInputArray, this`mtime, InputSources()`consumers
      ensures Valid() && forall s :: s in old(InputSources()) ==> s.ConsumersValid()
      ensures inputs == [] && !hasInputArray
      ensures old(hasInputArray) ==> mtime == old(mtime) + Occupied(old(inputs), null) + 1
      ensures !old(hasInputArray) ==> mtime == old(mtime)
      ensures forall s :: s in old(InputSources()) ==> s.consumers == Removed(old(s.consumers), this)
      ensures forall s :: s in old(InputSources()) ==> this !in s.consumers
    {
      if !hasInputArray {
        assert InputSources() == {};
        return;
      }
      ghost var before := inputs;
      ghost var sources := InputSources();
      ghost var orig := map s | s in sources :: s.consumers;
      var idx := 0;
      while idx < |inputs|
        invariant 0 <= idx <= |inputs| == |before|
        invariant Valid() && hasInputArray
        invariant forall k :: idx <= k < |inputs| ==> inputs[k] == before[k]
        invariant mtime == old(mtime) + Occupied(before[..idx], null)
        invariant Detached(sources, before, orig, idx)
      {
        OccupiedPrefix(before, idx, null);
        DetachSlot(idx, sources, before, orig);
        idx := idx + 1;
      }
      assert before[..idx] == before;
      DetachedComplete(sources, before, orig);
      inputs := [];
      hasInputArray := false;
      mtime := mtime + 1;
    }

    // -------------------------------------------------------------------
    // Name and label

    method SetName(arg: Option<string>)
      modifies this`name, this`mtime
      ensures SameString(old(name), arg) ==> name == old(name) && mtime == old(mtime)
      ensures !SameString(old(name), arg) ==> name == arg && mtime == old(mtime) + 1
    {
      if SameString(name, arg) {
        return;
      }
      name := arg;
      mtime := mtime + 1;
    }

    method SetLabelNoTrace(arg: Option<string>)
      modifies this`labelText, this`mtime
      ensures SameString(old(labelText), arg) ==> labelText == old(labelText) && mtime == old(mtime)
      ensures !SameString(old(labelText), arg) ==> labelText == arg && mtime == old(mtime) + 1
    {
      if SameString(labelText, arg) {
        return;
      }
      labelText := arg;
      mtime := mtime + 1;
    }

    /** A labelText that has never been set is initialised from the name. */
    method GetLabel() returns (r: Option<string>)
      modifies this`labelText, this`mtime
      ensures r == labelText
      ensures old(labelText).Some? ==> labelText == old(labelText) && mtime == old(mtime)
      ensures old(labelText).None? ==> labelText == old(name) && mtime == old(mtime) + 1
    {
      if labelText.None? {
        SetLabelNoTrace(name);
      }
      r := labelText;
    }

    /** A labelText set by the user is never overwritten by SetLabelOnce. */
    method SetLabel(arg: Option<string>)
      modifies this`labelSetByUser, this`labelText, this`mtime
      ensures labelSetByUser
      ensures SameString(old(labelText), arg) ==> labelText == old(labelText) && mtime == old(mtime)
      ensures !SameString(old(labelText), arg) ==> labelText == arg && mtime == old(mtime) + 1
    {
      labelSetByUser := true;
      SetLabelNoTrace(arg);
    }

    method SetLabelOnce(arg: Option<string>)
      modifies this`labelText, this`mtime
      ensures old(labelSetByUser) ==> labelText == old(labelText) && mtime == old(mtime)
      ensures !old(labelSetByUser) && SameString(old(labelText), arg) ==> labelText == old(labelText) && mtime == old(mtime)
      ensures !old(labelSetByUser) && !SameString(old(labelText), arg) ==> labelText == arg && mtime == old(mtime) + 1
    {
      if !labelSetByUser {
        SetLabelNoTrace(arg);
      }
    }

    // -------------------------------------------------------------------
    // Accept button

    method SetAcceptButtonColorToModified()
      modifies this`acceptButtonRed
      ensures acceptButtonRed
    {
      if acceptButtonRed {
        return;
      }
      acceptButtonRed := true;
    }

    method SetAcceptButtonColorToUnmodified()
      modifies this`acceptButtonRed
      ensures !acceptButtonRed
    {
      if !acceptButtonRed {
        return;
      }
      acceptButtonRed := false;
    }

    /**
     * Accepting the parameters does nothing unless they were modified. It
     * clears the flag and, the first time, marks the source initialized:
     * either after creating and initialising the output, or, when no output
     * can be obtained, in the DeleteCallback it then runs.
     */
    method Accept()
      modifies this`acceptButtonRed, this`initialized
      ensures !old(acceptButtonRed) ==> !acceptButtonRed && initialized == old(initialized)
      ensures old(acceptButtonRed) ==> !acceptButtonRed && initialized
    {
      if !acceptButtonRed {
        return;
      }
      SetAcceptButtonColorToUnmodified();
      if !initialized {
        initialized := true;
      }
    }

    // -------------------------------------------------------------------
    // Input properties and cloning

    /** Finds the input property called `name`, creating and appending it when there is none. */
    method GetInputProperty(name: string) returns (p: InputProperty)
      requires Valid()
      modifies this`inputProperties
      ensures Valid()
      ensures p.name == name && p in inputProperties
      ensures name in old(Names(inputProperties)) ==> inputProperties == old(inputProperties)
      ensures name !in old(Names(inputProperties)) ==> fresh(p) && inputProperties == old(inputProperties) + [p]
    {
      var idx := 0;
      while idx < |inputProperties|
        invariant 0 <= idx <= |inputProperties|
        invariant forall k :: 0 <= k < idx ==> inputProperties[k].name != name
      {
        if inputProperties[idx].name == name {
          return inputProperties[idx];
        }
        idx := idx + 1;
      }
      p := new InputProperty(name);
      inputProperties := inputProperties + [p];
      assert Names(inputProperties) == old(Names(inputProperties)) + [name];
    }

    /**
     * Clones this prototype. `hasApplication` says whether the new instance
     * has a ParaView application and `proxyCreated` whether the proxy manager
     * created its proxy. The clone is named after the prototype and its
     * instance count, copies the input-property names and inherits the count;
     * the prototype's count then goes up by one. Any failure yields null and
     * leaves the count alone.
     */
    method ClonePrototype(hasApplication: bool, proxyCreated: bool) returns (clone: Source?)
      requires Valid()
      modifies this`prototypeInstanceCount
      ensures clone != null <==> hasApplication && CloneName(name, old(prototypeInstanceCount)).Some? && proxyCreated
      ensures clone == null ==> prototypeInstanceCount == old(prototypeInstanceCount)
      ensures clone != null ==>
        && fresh(clone) && clone.Valid()
        && clone.name == CloneName(name, old(prototypeInstanceCount))
        && clone.prototypeInstanceCount == old(prototypeInstanceCount)
        && prototypeInstanceCount == old(prototypeInstanceCount) + 1
        && Names(clone.inputProperties) == Names(inputProperties)
        && clone.inputs == [] && clone.consumers == [] && clone.labelText == None
        && clone.multipleProcessFlag == 2 && clone.isPermanent == 0 && !clone.acceptButtonRed
        && !clone.initialized && !clone.labelSetByUser && !clone.hasInputArray
    {
      clone := null;
      var pvs := new Source();
      var id := 0;
      while id < |inputProperties|
        invariant 0 <= id <= |inputProperties|
        invariant fresh(pvs) && pvs.Valid()
        invariant Names(pvs.inputProperties) == Names(inputProperties[..id])
        invariant pvs.inputs == [] && pvs.consumers == [] && pvs.labelText == None && pvs.name == None
        invariant pvs.multipleProcessFlag == 2 && pvs.isPermanent == 0 && !pvs.acceptButtonRed
        invariant !pvs.initialized && !pvs.labelSetByUser && !pvs.hasInputArray
        invariant pvs.prototypeInstanceCount == 0
        invariant prototypeInstanceCount == old(prototypeInstanceCount)
        invariant forall q :: q in pvs.inputProperties ==> fresh(q) || q in old(inputProperties)
      {
        var inProp := inputProperties[id];
        assert inProp.name !in Names(inputProperties[..id]) by {
          assert forall k :: 0 <= k < id ==> Names(inputProperties)[k] != Names(inputProperties)[id];
        }
        var copy := pvs.GetInputProperty(inProp.name);
        assert Names(inputProperties[..id + 1]) == Names(inputProperties[..id]) + [inProp.name];
        id := id + 1;
      }
      assert inputProperties[..id] == inputProperties;
      if !hasApplication {
        return;
      }
      var tclName := CloneName(name, prototypeInstanceCount);
      if tclName.None? {
        return;
      }
      pvs.SetName(tclName);
      if !proxyCreated {
        return;
      }
      pvs.prototypeInstanceCount := prototypeInstanceCount;
      prototypeInstanceCount := prototypeInstanceCount + 1;
      clone := pvs;
    }
  }

  /** A fresh upstream source fed into slots 0 and 1 of a fresh downstream source. */
  method FeedIntoTwoSlots() returns (upstream: Source, downstream: Source)
    ensures fresh(upstream) && fresh(downstream)
    ensures upstream.Valid() && downstream.Valid() && upstream.isPermanent == 0
    ensures downstream.inputs == [upstream, upstream]
    ensures upstream.consumers == [downstream]
  {
    upstream := new Source();
    downstream := new Source();
    downstream.SetNthPVInput(0, upstream);
    assert downstream.inputs == [upstream];
    downstream.SetNthPVInput(1, upstream);
    assert downstream.inputs == [upstream, upstream];
  }

  /**
   * Feeding one source into two slots of another and then clearing one slot
   * drops the consumer link although the other slot still holds the source:
   * the consumer list does not track how many slots a source occupies.
   */
  method StaleConsumerLink() returns (upstream: Source, downstream: Source)
    ensures fresh(upstream) && fresh(downstream)
    ensures downstream.inputs == [null, upstream]
    ensures upstream.consumers == []
    ensures upstream.IsDeletable() == 1
  {
    upstream, downstream := FeedIntoTwoSlots();
    downstream.SetNthPVInput(0, null);
    assert downstream.inputs == [null, upstream];
  }
}
