/**
 * The pure decision rules of vtkPVSource: whether the current number of
 * partitions suits a source's multi-process flag, which proxy-manager group
 * a clone is registered in, and the name a clone of a prototype receives.
 */
module PVSourceRules {
  import opened Wrappers

  // ---------------------------------------------------------------------
  // GetNumberOfProcessorsValid

  /**
   * `partitions` is None when the source has no application. Flag 0 (serial
   * only) accepts at most one partition, flag 1 (parallel only) anything but
   * exactly one, flag 2 everything; any other flag accepts nothing.
   */
  function NumberOfProcessorsValid(multipleProcessFlag: int, partitions: Option<int>): (r: int)
    ensures r == 0 || r == 1
    ensures partitions.None? ==> r == 0
    ensures partitions.Some? && multipleProcessFlag == 0 ==> (r == 1 <==> partitions.value <= 1)
    ensures partitions.Some? && multipleProcessFlag == 1 ==> (r == 1 <==> partitions.value != 1)
    ensures partitions.Some? && multipleProcessFlag == 2 ==> r == 1
    ensures multipleProcessFlag !in {0, 1, 2} ==> r == 0
  {
    match partitions
    case None => 0
    case Some(numProcs) =>
      if multipleProcessFlag == 0 then (if numProcs > 1 then 0 else 1)
      else if multipleProcessFlag == 1 then (if numProcs == 1 then 0 else 1)
      else if multipleProcessFlag == 2 then 1
      else 0
  }

  /**
   * Flags 0 and 1 split the partition counts between them: every count is
   * accepted by exactly one of them, and flag 2 accepts whatever either accepts.
   */
  lemma SerialAndParallelFlagsPartition(numProcs: int)
    ensures NumberOfProcessorsValid(0, Some(numProcs)) + NumberOfProcessorsValid(1, Some(numProcs))
            == (if numProcs < 1 then 2 else 1)
    ensures NumberOfProcessorsValid(0, Some(numProcs)) <= NumberOfProcessorsValid(2, Some(numProcs))
    ensures NumberOfProcessorsValid(1, Some(numProcs)) <= NumberOfProcessorsValid(2, Some(numProcs))
  {
  }

  // ---------------------------------------------------------------------
  // Proxy-manager groups

  /**
   * The group RegisterProxy registers a clone in. An explicit source list
   * names the group, except that "GlyphSources" is registered as
   * "glyph_sources"; without a list the source is a filter when it has input
   * properties and a plain source otherwise.
   */
  function RegisterProxyGroup(sourceList: Option<string>, numInputProperties: nat): (group: string)
    ensures sourceList == Some("GlyphSources") ==> group == "glyph_sources"
    ensures sourceList.Some? && sourceList.value != "GlyphSources" ==> group == sourceList.value
    ensures sourceList.None? ==> (group == "filters" <==> numInputProperties > 0)
    ensures sourceList.None? ==> group == "filters" || group == "sources"
  {
    match sourceList
    case Some(list) => if list == "GlyphSources" then "glyph_sources" else list
    case None => if numInputProperties > 0 then "filters" else "sources"
  }

  /** The group ClonePrototypeInternal creates the clone's proxy in. */
  function CreationGroup(numInputProperties: nat): (group: string)
    ensures group == "filters" <==> numInputProperties > 0
  {
    if numInputProperties > 0 then "filters" else "sources"
  }

  /** Without an explicit source list a clone is registered in the group its proxy was created in. */
  lemma RegisterGroupMatchesCreationGroup(numInputProperties: nat)
    ensures RegisterProxyGroup(None, numInputProperties) == CreationGroup(numInputProperties)
  {
  }

  // ---------------------------------------------------------------------
  // Clone names: the prototype's name followed by its instance count in decimal ("%s%d")

  function DigitChar(d: nat): (c: char)
    requires d < 10
    ensures '0' <= c <= '9'
  {
    "0123456789"[d]
  }

  function DigitValue(c: char): nat
    requires '0' <= c <= '9'
  {
    (c as int - '0' as int) as nat
  }

  predicate IsDigits(s: string) {
    forall k :: 0 <= k < |s| ==> '0' <= s[k] <= '9'
  }

  /** The decimal text of `n`, as printf's %d writes a non-negative int. */
  function DecimalString(n: nat): (s: string)
    ensures |s| > 0 && IsDigits(s)
    ensures |s| > 1 ==> s[0] != '0'
  {
    if n < 10 then [DigitChar(n)] else DecimalString(n / 10) + [DigitChar(n % 10)]
  }

  /** The number a string of decimal digits denotes. */
  function DecimalValue(s: string): nat
    requires IsDigits(s)
  {
    if |s| == 0 then 0 else DecimalValue(s[..|s| - 1]) * 10 + DigitValue(s[|s| - 1])
  }

  /** Reading back the decimal text of `n` gives `n`. */
  lemma {:induction false} DecimalRoundTrip(n: nat)
    ensures DecimalValue(DecimalString(n)) == n
  {
    var s := DecimalString(n);
    if n >= 10 {
      DecimalRoundTrip(n / 10);
      assert s[..|s| - 1] == DecimalString(n / 10);
      assert DigitValue(s[|s| - 1]) == n % 10;
    } else {
      assert s[..|s| - 1] == [];
    }
  }

  lemma DecimalStringInjective(i: nat, j: nat)
    requires DecimalString(i) == DecimalString(j)
    ensures i == j
  {
    DecimalRoundTrip(i);
    DecimalRoundTrip(j);
  }

  /**
   * The name of the next clone of a prototype called `name` whose instance
   * count is `count`, or None when cloning is refused because the prototype
   * has no name or an empty one.
   */
  function CloneName(name: Option<string>, count: nat): Option<string> {
    if name.Some? && |name.value| > 0 then Some(name.value + DecimalString(count)) else None
  }

  /** A clone name is the prototype's name followed by the decimal count, and it splits back into both. */
  lemma CloneNameParts(name: string, count: nat)
    requires |name| > 0
    ensures CloneName(Some(name), count).Some?
    ensures var n := CloneName(Some(name), count).value;
      |n| > |name| && n[..|name|] == name && IsDigits(n[|name|..])
      && DecimalValue(n[|name|..]) == count
  {
    var n := name + DecimalString(count);
    assert n[..|name|] == name;
    assert n[|name|..] == DecimalString(count);
    DecimalRoundTrip(count);
  }

  /** Cloning is refused exactly when the prototype's name is missing or empty. */
  lemma CloneNameRefused(name: Option<string>, count: nat)
    ensures CloneName(name, count).None? <==> name.None? || name.value == ""
  {
  }

  /** Clones of one prototype taken at different instance counts never share a name. */
  lemma CloneNamesDistinct(name: string, i: nat, j: nat)
    requires |name| > 0 && i != j
    ensures CloneName(Some(name), i) != CloneName(Some(name), j)
  {
    if CloneName(Some(name), i) == CloneName(Some(name), j) {
      var a := name + DecimalString(i);
      var b := name + DecimalString(j);
      assert a[|name|..] == DecimalString(i);
      assert b[|name|..] == DecimalString(j);
      DecimalStringInjective(i, j);
    }
  }

  /**
   * Uniqueness holds per prototype only: the prototypes "Cone1" and "Cone"
   * produce the same name at counts 0 and 10.
   */
  lemma CloneNamesOfTwoPrototypesMayCollide()
    ensures CloneName(Some("Cone1"), 0) == CloneName(Some("Cone"), 10)
  {
    assert DecimalString(0) == "0";
    assert DecimalString(10) == DecimalString(1) + "0" == "10";
    assert "Cone1" + "0" == "Cone" + "10";
  }
}
