/** The two parameter normalisers of src/blueskyapi/client.py, which turn
    loosely typed caller values into the strings the HTTP API expects. */
module Normalizer {
  import opened Wrappers
  import opened Text

  /** An element of a caller-supplied list: an int or a string. */
  datatype Element = IntElem(n: int) | StrElem(s: string)

  /** A Python `datetime`. Its date and time parts are rendered by Python;
      `isoformat()` joins them with `T`, `str()` with a space. */
  datatype DateTime = DateTime(datePart: string, timePart: string)

  /** The values a caller may pass: `None`, a string, a list, a datetime, or
      any other non-iterable object (a float, an int, ...) given by its `str()`. */
  datatype PyValue =
    | Absent
    | Str(s: string)
    | Items(elements: seq<Element>)
    | DateTimeValue(d: DateTime)
    | Other(text: string)

  /** A Python `TypeError` with its message. */
  datatype TypeError = TypeError(message: string)

  /** `str(v)` of a list element. */
  function ElementStr(e: Element): (s: string)
    ensures e.IntElem? ==> IsIntLiteral(s) && IntValue(s) == e.n
    ensures e.StrElem? ==> s == e.s
  {
    match e
    case IntElem(n) => IntDecimalRoundTrip(n); IntToDecimal(n)
    case StrElem(s) => s
  }

  /** The quote `repr` puts around a string: a double quote when the text
      holds a single quote and no double quote, a single quote otherwise. */
  function ReprQuote(s: string): (q: char)
    ensures q == '"' <==> '\'' in s && '"' !in s
    ensures q == '\'' <==> !('\'' in s && '"' !in s)
  {
    if '\'' in s && '"' !in s then '"' else '\''
  }

  /** `repr(v)` of a list element, as it appears inside `str()` of a list
      (escape sequences are not produced). */
  function ElementRepr(e: Element): (s: string)
    ensures e.IntElem? ==> s == ElementStr(e)
    ensures e.StrElem? ==>
              && |s| == |e.s| + 2 && s[1..|s| - 1] == e.s
              && s[0] == s[|s| - 1] == ReprQuote(e.s)
  {
    match e
    case IntElem(n) => IntToDecimal(n)
    case StrElem(s) => [ReprQuote(s)] + s + [ReprQuote(s)]
  }

  function ElementStrs(es: seq<Element>): (r: seq<string>)
    ensures |r| == |es| && forall k :: 0 <= k < |es| ==> r[k] == ElementStr(es[k])
  {
    seq(|es|, k requires 0 <= k < |es| => ElementStr(es[k]))
  }

  function ElementReprs(es: seq<Element>): (r: seq<string>)
    ensures |r| == |es| && forall k :: 0 <= k < |es| ==> r[k] == ElementRepr(es[k])
  {
    seq(|es|, k requires 0 <= k < |es| => ElementRepr(es[k]))
  }

  /** `datetime.isoformat()`. */
  function IsoFormat(d: DateTime): (s: string)
    ensures |s| == |d.datePart| + 1 + |d.timePart|
    ensures s[..|d.datePart|] == d.datePart && s[|d.datePart|] == 'T' && s[|d.datePart| + 1..] == d.timePart
  {
    d.datePart + "T" + d.timePart
  }

  /** `str(value)`, as interpolated into the error messages. */
  function Show(v: PyValue): (s: string)
    ensures v.Absent? ==> s == "None"
    ensures v.Str? ==> s == v.s
    ensures v.Other? ==> s == v.text
    ensures v.Items? ==> |s| >= 2 && s[0] == '[' && s[|s| - 1] == ']'
    ensures v.Items? ==> s[1..|s| - 1] == Join(", ", ElementReprs(v.elements))
    ensures v.DateTimeValue? ==>
              var iso := IsoFormat(v.d);
              && |s| == |iso| && s[|v.d.datePart|] == ' '
              && forall k :: 0 <= k < |s| && k != |v.d.datePart| ==> s[k] == iso[k]
  {
    match v
    case Absent => "None"
    case Str(s) => s
    case Items(es) => "[" + Join(", ", ElementReprs(es)) + "]"
    case DateTimeValue(d) => d.datePart + " " + d.timePart
    case Other(text) => text
  }

  const ShouldBe := " should be"
  const ListExpectation := ShouldBe + " an array of values or None, got "
  const DateTimeExpectation := ShouldBe + " a datetime or ISO datetime string, got "

  /** `_prepare_comma_separated_list(value, name)`. */
  function PrepareCommaSeparatedList(value: PyValue, name: string): (r: Result<Option<string>, TypeError>)
    ensures r == Success(None) <==> value.Absent?
    ensures value.Str? ==> r == Success(Some(value.s))
    ensures value.Items? ==> r == Success(Some(Join(",", ElementStrs(value.elements))))
    ensures r.Failure? <==> value.DateTimeValue? || value.Other?
    ensures r.Failure? ==> r.error.message == name + ListExpectation + Show(value)
  {
    match value
    case Absent => Success(None)
    case Str(s) => Success(Some(s))
    case Items(es) => Success(Some(Join(",", ElementStrs(es))))
    case _ => Failure(TypeError(name + ListExpectation + Show(value)))
  }

  /** `_prepare_datetime(value, name)`. */
  function PrepareDatetime(value: PyValue, name: string): (r: Result<Option<string>, TypeError>)
    ensures r == Success(None) <==> value.Absent?
    ensures value.DateTimeValue? ==> r == Success(Some(IsoFormat(value.d)))
    ensures value.Str? ==> r == Success(Some(value.s))
    ensures r.Failure? <==> value.Items? || value.Other?
    ensures r.Failure? ==> r.error.message == name + DateTimeExpectation + Show(value)
  {
    match value
    case Absent => Success(None)
    case DateTimeValue(d) => Success(Some(IsoFormat(d)))
    case Str(s) => Success(Some(s))
    case _ => Failure(TypeError(name + DateTimeExpectation + Show(value)))
  }

  /** Either normaliser names the offending parameter at the head of its message. */
  lemma TypeErrorsNameTheParameter(value: PyValue, name: string)
    ensures PrepareCommaSeparatedList(value, name).Failure? ==>
              name + ShouldBe <= PrepareCommaSeparatedList(value, name).error.message
    ensures PrepareDatetime(value, name).Failure? ==>
              name + ShouldBe <= PrepareDatetime(value, name).error.message
  {
    assert name + ListExpectation == (name + ShouldBe) + " an array of values or None, got ";
    assert name + DateTimeExpectation == (name + ShouldBe) + " a datetime or ISO datetime string, got ";
  }

  /** A normalised value is a fixed point: passing the result back in as a string returns it unchanged. */
  lemma NormalizersIdempotent(value: PyValue, name: string)
    ensures var r := PrepareCommaSeparatedList(value, name);
      r.Success? && r.value.Some? ==> PrepareCommaSeparatedList(Str(r.value.value), name) == r
    ensures var r := PrepareDatetime(value, name);
      r.Success? && r.value.Some? ==> PrepareDatetime(Str(r.value.value), name) == r
  {
  }

  /** A non-empty list whose elements contain no comma is recovered, element by
      element and in order, by splitting the normalised value at its commas. */
  lemma ListSplitsBack(es: seq<Element>, name: string)
    requires |es| > 0
    requires forall k :: 0 <= k < |es| ==> ',' !in ElementStr(es[k])
    ensures var r := PrepareCommaSeparatedList(Items(es), name);
      r.Success? && r.value.Some? && Split(r.value.value, ',') == ElementStrs(es)
  {
    SplitJoin(ElementStrs(es), ',');
  }

  /** A non-empty list of ints, such as forecast distances, normalises to a
      comma-separated string from which the same ints are read back in order. */
  lemma IntListRoundTrip(es: seq<Element>, name: string)
    requires |es| > 0
    requires forall k :: 0 <= k < |es| ==> es[k].IntElem?
    ensures var r := PrepareCommaSeparatedList(Items(es), name);
      && r.Success? && r.value.Some?
      && var parts := Split(r.value.value, ',');
      && |parts| == |es|
      && forall k :: 0 <= k < |es| ==> IsIntLiteral(parts[k]) && IntValue(parts[k]) == es[k].n
  {
    forall k | 0 <= k < |es| ensures ',' !in ElementStr(es[k]) && IntValue(ElementStr(es[k])) == es[k].n {
      IntDecimalRoundTrip(es[k].n);
      IntToDecimalChars(es[k].n);
    }
    ListSplitsBack(es, name);
  }

  /** The normalised list keeps the first element's text at its start and the
      last element's text at its end: no comma is added before or after. */
  lemma ListHasNoOuterComma(es: seq<Element>, name: string)
    requires |es| > 0
    ensures var r := PrepareCommaSeparatedList(Items(es), name);
      && r.Success? && r.value.Some?
      && var s := r.value.value; var first := ElementStr(es[0]); var last := ElementStr(es[|es| - 1]);
      && first <= s
      && |last| <= |s| && s[|s| - |last|..] == last
  {
    JoinEnds(",", ElementStrs(es));
  }

  /** The example of the library's tests: `[0, 24]` becomes `"0,24"`. */
  lemma DistancesExample()
    ensures PrepareCommaSeparatedList(Items([IntElem(0), IntElem(24)]), "prediction_distances")
            == Success(Some("0,24"))
  {
    assert NatToDecimal(2) == "2";
    assert NatToDecimal(24) == "2" + "4";
    var strs := ElementStrs([IntElem(0), IntElem(24)]);
    assert strs[0] == "0" && strs[1] == "24";
    assert strs == ["0", "24"];
    assert Join(",", strs) == "0" + "," + Join(",", strs[1..]);
    assert strs[1..] == ["24"];
    assert "0" + "," + "24" == "0,24";
  }
}
