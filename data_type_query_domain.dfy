/**
 * vtkSMDataTypeQueryDomain: a domain that caches the data type of the
 * dataset reaching its "Input" property and publishes it through element 0
 * of an int-vector property.
 */
module DataTypeQueryDomain {
  import opened Wrappers

  /** What the domain reads from the input's data information. */
  datatype DataInformation = DataInformation(isComposite: bool, compositeDataSetType: int, dataSetType: int)

  /** The type Update caches: the composite-dataset type for composite data, the dataset type otherwise. */
  function InputDataTypeOf(info: DataInformation): (t: int)
    ensures info.isComposite ==> t == info.compositeDataSetType
    ensures !info.isComposite ==> t == info.dataSetType
  {
    if info.isComposite then info.compositeDataSetType else info.dataSetType
  }

  /** Element values after writing `v` to element 0: an empty vector gets one element. */
  function WithFirst(s: seq<int>, v: int): seq<int> {
    if |s| == 0 then [v] else s[0 := v]
  }

  /** Writing element 0 sets that element, keeps every other one, and writing the same value again changes nothing. */
  lemma WithFirstFacts(s: seq<int>, v: int)
    ensures |WithFirst(s, v)| == if |s| == 0 then 1 else |s|
    ensures WithFirst(s, v)[0] == v
    ensures forall k :: 1 <= k < |s| ==> WithFirst(s, v)[k] == s[k]
    ensures WithFirst(WithFirst(s, v), v) == WithFirst(s, v)
    ensures |s| > 0 && s[0] == v ==> WithFirst(s, v) == s
  {
  }

  /**
   * The cached type after one Update: unchanged without an "Input" property
   * or without data information, otherwise the type the information names.
   */
  function UpdatedInputDataType(cached: int, hasInput: bool, info: Option<DataInformation>): (t: int)
    ensures !hasInput || info.None? ==> t == cached
    ensures hasInput && info.Some? ==> t == InputDataTypeOf(info.value)
  {
    if hasInput && info.Some? then InputDataTypeOf(info.value) else cached
  }

  /** A second Update on the same input leaves the cached type where the first put it. */
  lemma UpdateIdempotent(cached: int, hasInput: bool, info: Option<DataInformation>)
    ensures var once := UpdatedInputDataType(cached, hasInput, info);
      UpdatedInputDataType(once, hasInput, info) == once
  {
  }

  /** Whether Update changes anything: only when it has an input, information and a new type. */
  predicate UpdateChanges(cached: int, hasInput: bool, info: Option<DataInformation>) {
    UpdatedInputDataType(cached, hasInput, info) != cached
  }

  /** A server-manager property: only its kind and its checked and unchecked elements matter here. */
  class Property {
    /** Whether the property is a vtkSMIntVectorProperty. */
    const isIntVector: bool
    var elements: seq<int>
    var uncheckedElements: seq<int>

    constructor(isIntVector: bool, elements: seq<int>, uncheckedElements: seq<int>)
      ensures this.isIntVector == isIntVector
      ensures this.elements == elements && this.uncheckedElements == uncheckedElements
    {
      this.isIntVector := isIntVector;
      this.elements := elements;
      this.uncheckedElements := uncheckedElements;
    }

    method SetElement0(v: int)
      modifies this`elements
      ensures elements == WithFirst(old(elements), v)
    {
      elements := WithFirst(elements, v);
    }

    method SetUncheckedElement0(v: int)
      modifies this`uncheckedElements
      ensures uncheckedElements == WithFirst(old(uncheckedElements), v)
    {
      uncheckedElements := WithFirst(uncheckedElements, v);
    }
  }

  /** A nullable property as a set, for frames. */
  function OnlyProperty(p: Property?): set<Property> {
    if p == null then {} else {p}
  }

  class Domain {
    var isOptional: bool
    var inputDataType: int
    /** How many times DomainModified has fired. */
    var modifiedEvents: nat
    /** The property the domain belongs to (GetProperty()). */
    const property: Property?

    constructor(property: Property?, isOptional: bool, inputDataType: int)
      ensures this.property == property && this.isOptional == isOptional
      ensures this.inputDataType == inputDataType && modifiedEvents == 0
    {
      this.property := property;
      this.isOptional := isOptional;
      this.inputDataType := inputDataType;
      modifiedEvents := 0;
    }

    /** An optional domain accepts every property; otherwise exactly the int-vector properties. */
    function IsInDomain(p: Property?): (r: int)
      reads this`isOptional
      ensures r == 0 || r == 1
      ensures r == 1 <==> isOptional || (p != null && p.isIntVector)
    {
      if isOptional then 1 else if p != null && p.isIntVector then 1 else 0
    }

    /**
     * Update with `hasInput` telling whether the required "Input" property
     * exists and `info` the data information reaching it. A new type is
     * cached, written to element 0 of the domain's property, and announced
     * once; an unchanged type, a missing input or missing information
     * changes nothing.
     */
    method Update(hasInput: bool, info: Option<DataInformation>)
      requires UpdateChanges(inputDataType, hasInput, info) ==> property != null && property.isIntVector
      modifies this`inputDataType, this`modifiedEvents, OnlyProperty(property)`elements
      ensures inputDataType == UpdatedInputDataType(old(inputDataType), hasInput, info)
      ensures modifiedEvents == old(modifiedEvents) + (if UpdateChanges(old(inputDataType), hasInput, info) then 1 else 0)
      ensures property != null && UpdateChanges(old(inputDataType), hasInput, info) ==>
                property.elements == WithFirst(old(property.elements), inputDataType)
      ensures property != null && !UpdateChanges(old(inputDataType), hasInput, info) ==>
                property.elements == old(property.elements)
    {
      if !hasInput {
        return;
      }
      if info.None? {
        return;
      }
      var t := InputDataTypeOf(info.value);
      if t != inputDataType {
        inputDataType := t;
        property.SetElement0(inputDataType);
        modifiedEvents := modifiedEvents + 1;
      }
    }

    /**
     * Writes the cached type to element 0 of `p`, unchecked or checked as
     * asked, and then answers what the superclass answers (`superResult`).
     * A property that is not an int-vector property is refused with 0.
     */
    method SetDefaultValues(p: Property?, useUnchecked: bool, superResult: int) returns (r: int)
      modifies OnlyProperty(p)`elements, OnlyProperty(p)`uncheckedElements
      ensures p == null || !p.isIntVector ==> r == 0
      ensures p != null && !p.isIntVector ==>
                p.elements == old(p.elements) && p.uncheckedElements == old(p.uncheckedElements)
      ensures p != null && p.isIntVector ==> r == superResult
      ensures p != null && p.isIntVector && useUnchecked ==>
                p.uncheckedElements == WithFirst(old(p.uncheckedElements), inputDataType)
                && p.elements == old(p.elements)
      ensures p != null && p.isIntVector && !useUnchecked ==>
                p.elements == WithFirst(old(p.elements), inputDataType)
                && p.uncheckedElements == old(p.uncheckedElements)
    {
      if p == null || !p.isIntVector {
        return 0;
      }
      if useUnchecked {
        p.SetUncheckedElement0(inputDataType);
      } else {
        p.SetElement0(inputDataType);
      }
      r := superResult;
    }
  }

  /**
   * Two Updates on the same input have the effect of one: the second caches
   * nothing new, writes no element and fires no DomainModified.
   */
  method UpdateTwice(d: Domain, hasInput: bool, info: Option<DataInformation>)
    requires UpdateChanges(d.inputDataType, hasInput, info) ==> d.property != null && d.property.isIntVector
    modifies d`inputDataType, d`modifiedEvents, OnlyProperty(d.property)`elements
    ensures d.inputDataType == UpdatedInputDataType(old(d.inputDataType), hasInput, info)
    ensures d.modifiedEvents == old(d.modifiedEvents)
                                + (if UpdateChanges(old(d.inputDataType), hasInput, info) then 1 else 0)
    ensures d.property != null && UpdateChanges(old(d.inputDataType), hasInput, info) ==>
              d.property.elements == WithFirst(old(d.property.elements), d.inputDataType)
    ensures d.property != null && !UpdateChanges(old(d.inputDataType), hasInput, info) ==>
              d.property.elements == old(d.property.elements)
  {
    d.Update(hasInput, info);
    UpdateIdempotent(old(d.inputDataType), hasInput, info);
    d.Update(hasInput, info);
  }
}
