/**
 * The scan inside `publishDestroyedEvent`: the proximity reading is the `value` of the
 * first submodel whose `idShort` equals "ProximityData" ignoring case, and "0" otherwise.
 */
module Proximity {
  import opened Wrappers

  const TARGET_ID_SHORT := "ProximityData"
  /** The value published when no reading can be extracted. */
  const SENTINEL := "0"

  /** One element of the submodel array, as its `idShort` and `value` read as text. */
  datatype Record = Record(idShort: string, value: string)

  function ToUpperAscii(c: char): char
  {
    if 'a' <= c <= 'z' then (c as int - 32) as char else c
  }

  function ToLowerAscii(c: char): char
  {
    if 'A' <= c <= 'Z' then (c as int + 32) as char else c
  }

  /** The character test of Java's `String.regionMatches(true, ...)`. */
  predicate CharEqualsIgnoreCase(a: char, b: char)
  {
    || a == b
    || ToUpperAscii(a) == ToUpperAscii(b)
    || ToLowerAscii(ToUpperAscii(a)) == ToLowerAscii(ToUpperAscii(b))
  }

  /** Java's `String.equalsIgnoreCase`: equal lengths and pairwise equal characters up to case. */
  predicate EqualsIgnoreCase(a: string, b: string)
  {
    |a| == |b| && forall i :: 0 <= i < |a| ==> CharEqualsIgnoreCase(a[i], b[i])
  }

  /** The lower-case form of a string, the reference against which `EqualsIgnoreCase` is stated. */
  function Lower(s: string): string
  {
    seq(|s|, i requires 0 <= i < |s| => ToLowerAscii(s[i]))
  }

  /** Two strings are equal ignoring case exactly when their lower-case forms are equal. */
  lemma EqualsIgnoreCaseIsLowerEquality(a: string, b: string)
    ensures EqualsIgnoreCase(a, b) <==> Lower(a) == Lower(b)
  {
    if Lower(a) == Lower(b) {
      assert |a| == |b|;
      forall i | 0 <= i < |a| ensures CharEqualsIgnoreCase(a[i], b[i]) {
        assert Lower(a)[i] == Lower(b)[i];
      }
    }
  }

  /** The submodel test at line 167 of the listener. */
  predicate IsProximityRecord(r: Record)
  {
    EqualsIgnoreCase(TARGET_ID_SHORT, r.idShort)
  }

  /** `i` is the first matching position in `records`. */
  predicate IsFirstMatch(records: seq<Record>, i: nat)
  {
    && i < |records|
    && IsProximityRecord(records[i])
    && forall j :: 0 <= j < i ==> !IsProximityRecord(records[j])
  }

  /** The position of the first matching submodel, if any. */
  function FirstMatch(records: seq<Record>): (r: Option<nat>)
    ensures r.Some? ==> IsFirstMatch(records, r.value)
    ensures r.None? <==> forall j :: 0 <= j < |records| ==> !IsProximityRecord(records[j])
  {
    if records == [] then None
    else if IsProximityRecord(records[0]) then Some(0)
    else match FirstMatch(records[1..])
      case None => None
      case Some(i) => Some(i + 1)
  }

  /**
   * The reading extracted from a parsed response body. `None` stands for a body that
   * failed to parse or is not a JSON array; `Some(records)` for an array of submodels.
   */
  function ProximityValue(body: Option<seq<Record>>): (v: string)
    ensures body.None? ==> v == SENTINEL
    ensures body.Some? ==>
              (forall j :: 0 <= j < |body.value| ==> !IsProximityRecord(body.value[j])) ==> v == SENTINEL
    ensures forall i: nat :: body.Some? && IsFirstMatch(body.value, i) ==> v == body.value[i].value
  {
    match body
    case None => SENTINEL
    case Some(records) =>
      if |records| > 0 then
        match FirstMatch(records)
        case None => SENTINEL
        case Some(i) => records[i].value
      else
        SENTINEL
  }

  /**
   * The loop of `publishDestroyedEvent`: start from the sentinel, walk the submodels and
   * stop at the first whose `idShort` matches.
   */
  method ExtractProximityValue(body: Option<seq<Record>>) returns (proximityValue: string)
    ensures proximityValue == ProximityValue(body)
  {
    proximityValue := SENTINEL;
    match body {
      case None =>
      case Some(records) =>
        if |records| > 0 {
          var i := 0;
          while i < |records|
            invariant 0 <= i <= |records|
            invariant forall j :: 0 <= j < i ==> !IsProximityRecord(records[j])
            invariant proximityValue == SENTINEL
          {
            if EqualsIgnoreCase(TARGET_ID_SHORT, records[i].idShort) {
              proximityValue := records[i].value;
              assert IsFirstMatch(records, i);
              break;
            }
            i := i + 1;
          }
        }
    }
  }

  /** A record further on never overrides an earlier match: appending records changes nothing. */
  lemma {:induction false} FirstMatchWins(records: seq<Record>, later: seq<Record>, i: nat)
    requires IsFirstMatch(records, i)
    ensures ProximityValue(Some(records + later)) == records[i].value
  {
    var all := records + later;
    assert forall j :: 0 <= j <= i ==> all[j] == records[j];
    assert IsFirstMatch(all, i);
  }

  /** Any spelling of the target name that agrees with it up to case selects the record. */
  lemma MatchIgnoresCase(r: Record)
    requires Lower(r.idShort) == Lower(TARGET_ID_SHORT)
    ensures IsProximityRecord(r)
    ensures ProximityValue(Some([r])) == r.value
  {
    EqualsIgnoreCaseIsLowerEquality(TARGET_ID_SHORT, r.idShort);
    assert IsFirstMatch([r], 0);
  }

  /** A response `[{"idShort": "proximitydata", "value": "42"}]` yields "42". */
  lemma LowerCaseResponseYieldsValue()
    ensures ProximityValue(Some([Record("proximitydata", "42")])) == "42"
  {
    var r := Record("proximitydata", "42");
    assert Lower(r.idShort) == Lower(TARGET_ID_SHORT);
    MatchIgnoresCase(r);
  }

  /** A record whose `idShort` differs from the target in more than case is never selected. */
  lemma OtherNamesNeverMatch(r: Record)
    requires Lower(r.idShort) != Lower(TARGET_ID_SHORT)
    ensures !IsProximityRecord(r)
    ensures ProximityValue(Some([r])) == SENTINEL
  {
    EqualsIgnoreCaseIsLowerEquality(TARGET_ID_SHORT, r.idShort);
  }
}
