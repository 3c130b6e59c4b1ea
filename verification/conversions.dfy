/**
 * The conversion stage of the workflow: the loop over the Planner's
 * `conversion_list` that keeps entries holding `amount`, `unit` and `to_unit`,
 * skips the rest, and runs the unit conversion tool on each kept entry.
 */
module Conversions {
  import opened Wrappers
  import opened Plan
  import UnitConverter

  /** A kept entry's fields, or the silent skip of an entry missing a key. */
  datatype Parsed = Parsed(amount: Value, unit: Value, toUnit: Value) | Skipped

  /**
   * Why a kept entry could not be converted: `float()` rejects the amount,
   * or the unit is not a string and has no `lower()`. Either exception ends the run.
   */
  datatype ConversionError = AmountNotNumeric(amount: Value) | UnitNotText(unit: Value)

  /** One conversion note: the entry's amount and unit, the converted amount, the target unit. */
  datatype Outcome = Outcome(originalAmount: real, originalUnit: string, converted: real, targetUnit: Value)

  predicate HasRequiredKeys(e: Entry) {
    AmountKey in e && UnitKey in e && ToUnitKey in e
  }

  /** The lenient key test: an entry is parsed exactly when all three keys are present. */
  function Parse(e: Entry): (p: Parsed)
    ensures p.Parsed? <==> HasRequiredKeys(e)
    ensures p.Parsed? ==> p.amount == e[AmountKey] && p.unit == e[UnitKey] && p.toUnit == e[ToUnitKey]
  {
    if HasRequiredKeys(e) then Parsed(e[AmountKey], e[UnitKey], e[ToUnitKey]) else Skipped
  }

  /** `float(v)` for the values it accepts. */
  function ToFloat(v: Value): (r: Option<real>)
    ensures r.Some? <==> v.Num?
    ensures r.Some? ==> r.value == v.number
  {
    match v
    case Num(x) => Some(x)
    case _ => None
  }

  /**
   * Converts one kept entry: the amount is coerced first, then the unit is
   * handed to the tool.
   */
  function ConvertParsed(p: Parsed): (r: Result<Outcome, ConversionError>)
    requires p.Parsed?
    ensures r.Success? <==> p.amount.Num? && p.unit.Str?
    ensures !p.amount.Num? ==> r == Failure(AmountNotNumeric(p.amount))
    ensures p.amount.Num? && !p.unit.Str? ==> r == Failure(UnitNotText(p.unit))
    ensures r.Success? ==>
              && r.value.originalAmount == p.amount.number
              && r.value.originalUnit == p.unit.text
              && r.value.converted == UnitConverter.Convert(p.amount.number, p.unit.text)
              && r.value.targetUnit == p.toUnit
  {
    match ToFloat(p.amount)
    case None => Failure(AmountNotNumeric(p.amount))
    case Some(x) =>
      match p.unit
      case Str(u) => Success(Outcome(x, u, UnitConverter.Convert(x, u), p.toUnit))
      case _ => Failure(UnitNotText(p.unit))
  }

  /** Converts an entry known to hold all three keys. */
  function ConvertEntry(e: Entry): Result<Outcome, ConversionError>
    requires HasRequiredKeys(e)
  {
    ConvertParsed(Parse(e))
  }

  /** Reference filter: the entries holding all three keys, in their original order. */
  function Kept(entries: seq<Entry>): (k: seq<Entry>)
    ensures |k| <= |entries|
    ensures forall i :: 0 <= i < |k| ==> HasRequiredKeys(k[i])
  {
    if entries == [] then []
    else (if HasRequiredKeys(entries[0]) then [entries[0]] else []) + Kept(entries[1..])
  }

  /**
   * The loop over the entries: entries missing a key are skipped, kept
   * entries are converted in order, and the first failing conversion ends
   * the loop with its error.
   */
  function ConvertAll(entries: seq<Entry>): (r: Result<seq<Outcome>, ConversionError>)
    ensures r.Success? ==> |r.value| == |Kept(entries)| <= |entries|
  {
    if entries == [] then Success([])
    else
      match Parse(entries[0])
      case Skipped => ConvertAll(entries[1..])
      case Parsed(a, u, t) =>
        match ConvertParsed(Parsed(a, u, t))
        case Failure(e) => Failure(e)
        case Success(o) =>
          match ConvertAll(entries[1..])
          case Failure(e) => Failure(e)
          case Success(os) => Success([o] + os)
  }

  /** The entries the loop iterates over: a value that is not a list counts as empty. */
  function EntriesOf(list: ConversionList): (es: seq<Entry>)
    ensures list.NotAList? ==> es == []
    ensures list.Listed? ==> es == list.entries
  {
    if list.Listed? then list.entries else []
  }

  /** The conversion stage on the Planner's `conversion_list`. */
  function ConversionStage(list: ConversionList): (r: Result<seq<Outcome>, ConversionError>)
    ensures list.NotAList? ==> r == Success([])
    ensures list.Listed? ==> r == ConvertAll(list.entries)
  {
    ConvertAll(EntriesOf(list))
  }

  /** The filter keeps exactly the entries holding all three keys. */
  lemma {:induction false} KeptMembers(entries: seq<Entry>)
    ensures forall e :: e in Kept(entries) <==> e in entries && HasRequiredKeys(e)
  {
    if entries != [] {
      KeptMembers(entries[1..]);
      assert entries == [entries[0]] + entries[1..];
    }
  }

  /** The filter distributes over concatenation, so it preserves the entries' order. */
  lemma {:induction false} KeptConcat(a: seq<Entry>, b: seq<Entry>)
    ensures Kept(a + b) == Kept(a) + Kept(b)
  {
    if a == [] {
      assert a + b == b;
    } else {
      assert (a + b)[0] == a[0];
      assert (a + b)[1..] == a[1..] + b;
      KeptConcat(a[1..], b);
    }
  }

  /** Unfolding the loop and the filter on an entry that holds all three keys. */
  lemma KeptHead(entries: seq<Entry>)
    requires entries != [] && HasRequiredKeys(entries[0])
    ensures Kept(entries) == [entries[0]] + Kept(entries[1..])
    ensures ConvertAll(entries) == match ConvertEntry(entries[0])
      case Failure(e) => Failure(e)
      case Success(o) => match ConvertAll(entries[1..])
        case Failure(e) => Failure(e)
        case Success(os) => Success([o] + os)
  {
  }

  /** Unfolding the loop and the filter on an entry that misses a key. */
  lemma SkippedHead(entries: seq<Entry>)
    requires entries != [] && !HasRequiredKeys(entries[0])
    ensures Kept(entries) == Kept(entries[1..])
    ensures ConvertAll(entries) == ConvertAll(entries[1..])
  {
  }

  /**
   * The loop succeeds exactly when every kept entry converts, and then
   * outcome i comes from kept entry i.
   */
  lemma {:induction false} ConvertAllSucceeds(entries: seq<Entry>)
    ensures var r := ConvertAll(entries); var k := Kept(entries);
      && (r.Success? <==> forall i :: 0 <= i < |k| ==> ConvertEntry(k[i]).Success?)
      && (r.Success? ==> forall i :: 0 <= i < |k| ==> ConvertEntry(k[i]) == Success(r.value[i]))
  {
    if entries == [] {
    } else if HasRequiredKeys(entries[0]) {
      ConvertAllSucceeds(entries[1..]);
      KeptHead(entries);
      var k := Kept(entries);
      var k' := Kept(entries[1..]);
      assert k[0] == entries[0];
      assert forall i :: 1 <= i < |k| ==> k[i] == k'[i - 1];
      var r' := ConvertAll(entries[1..]);
      if ConvertEntry(entries[0]).Failure? {
        assert !ConvertEntry(k[0]).Success?;
      } else if r'.Failure? {
        var i' :| 0 <= i' < |k'| && !ConvertEntry(k'[i']).Success?;
        assert !ConvertEntry(k[i' + 1]).Success?;
      }
    } else {
      ConvertAllSucceeds(entries[1..]);
      SkippedHead(entries);
    }
  }

  /**
   * A failing loop stops with the error of the first kept entry that fails:
   * all kept entries before it convert.
   */
  lemma {:induction false} ConvertAllFirstFailure(entries: seq<Entry>)
    ensures var r := ConvertAll(entries); var k := Kept(entries);
      r.Failure? ==> exists i :: 0 <= i < |k| && ConvertEntry(k[i]) == Failure(r.error)
                                && forall j :: 0 <= j < i ==> ConvertEntry(k[j]).Success?
  {
    if entries == [] {
    } else if HasRequiredKeys(entries[0]) {
      KeptHead(entries);
      var k := Kept(entries);
      var k' := Kept(entries[1..]);
      var r' := ConvertAll(entries[1..]);
      assert k[0] == entries[0];
      if ConvertEntry(entries[0]).Success? && r'.Failure? {
        ConvertAllFirstFailure(entries[1..]);
        var i' :| 0 <= i' < |k'| && ConvertEntry(k'[i']) == Failure(r'.error)
                 && forall j :: 0 <= j < i' ==> ConvertEntry(k'[j]).Success?;
        assert k[i' + 1] == k'[i'];
        assert forall j :: 1 <= j < i' + 1 ==> k[j] == k'[j - 1];
      }
    } else {
      ConvertAllFirstFailure(entries[1..]);
      SkippedHead(entries);
    }
  }

  /** An entry missing any key produces no outcome and never stops the loop. */
  lemma {:induction false} SkippedEntryIsInvisible(prefix: seq<Entry>, e: Entry, suffix: seq<Entry>)
    requires !HasRequiredKeys(e)
    ensures ConvertAll(prefix + [e] + suffix) == ConvertAll(prefix + suffix)
  {
    if prefix == [] {
      assert ([e] + suffix)[1..] == suffix;
      assert prefix + [e] + suffix == [e] + suffix;
      assert prefix + suffix == suffix;
    } else {
      assert (prefix + [e] + suffix)[0] == prefix[0];
      assert (prefix + [e] + suffix)[1..] == prefix[1..] + [e] + suffix;
      assert (prefix + suffix)[0] == prefix[0];
      assert (prefix + suffix)[1..] == prefix[1..] + suffix;
      SkippedEntryIsInvisible(prefix[1..], e, suffix);
    }
  }

  /** The mock plan's single entry passes the key filter and becomes 240 grams. */
  lemma MockConversionYields240()
    ensures ConversionStage(MockData().conversionList)
         == Success([Outcome(2.0, "cups", 240.0, Str("grams"))])
  {
    var e := MockData().conversionList.entries[0];
    var o := Outcome(2.0, "cups", 240.0, Str("grams"));
    UnitConverter.CupSpellings(2.0);
    assert ConvertEntry(e) == Success(o);
    assert ConvertAll([e][1..]) == Success([]);
    assert [o] + [] == [o];
  }
}
