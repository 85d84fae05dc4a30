/** cleanData(): trims the values of the assembled record before it is mapped. */
module Normalize {
  import opened PhpText
  import opened PhpValues

  /** A scalar cleanData() leaves as it is: a string with nothing to trim at either end, or an empty
      non-string (null, false, 0). */
  predicate IsClean(v: Scalar) {
    match v
    case Str(s) => NoEdgeSpace(s)
    case _ => IsEmpty(v)
  }

  predicate IsCleanValue(v: Value) {
    match v
    case Scalar(x) => IsClean(x)
    case List(items) => forall i :: 0 <= i < |items| ==> IsClean(items[i])
  }

  /** `empty($v) ? $v : trim($v)`: an empty value is kept; any other is trimmed, a non-string being
      converted to its string first. */
  function CleanScalar(v: Scalar): (r: Scalar)
    ensures IsEmpty(v) ==> r == v
    ensures !IsEmpty(v) ==> r.Str?
    ensures IsClean(r)
    ensures IsClean(v) ==> r == v
    ensures v.Str? && !IsEmpty(v) ==> r.s == Trim(v.s)
    ensures v.Int? && v.i != 0 ==> r == Str(IntToString(v.i))
    ensures v == Bool(true) ==> r == Str("1")
    ensures (v == Null) <==> (r == Null)
  {
    if IsEmpty(v) then v else Str(Trim(ToText(v)))
  }

  /** One entry of the record after cleanData(): a scalar cleaned, or an array cleaned element by element. */
  function CleanValue(v: Value): (r: Value)
    ensures IsCleanValue(r)
    ensures IsCleanValue(v) ==> r == v
    ensures IsSet(r) <==> IsSet(v)
  {
    match v
    case Scalar(x) => Scalar(CleanScalar(x))
    case List(items) => List(seq(|items|, i requires 0 <= i < |items| => CleanScalar(items[i])))
  }

  lemma CleanedItems(items: seq<Scalar>, cleaned: seq<Scalar>)
    requires |cleaned| == |items|
    requires forall j :: 0 <= j < |items| ==> cleaned[j] == CleanScalar(items[j])
    ensures List(cleaned) == CleanValue(List(items))
  {
    var expected := CleanValue(List(items)).items;
    assert |expected| == |cleaned|;
    forall j | 0 <= j < |cleaned| ensures expected[j] == cleaned[j] {
    }
    assert expected == cleaned;
  }

  /** The inner loop of cleanData(): `$data[$key][$key2]` rewritten element by element. */
  method CleanList(items: seq<Scalar>) returns (cleaned: seq<Scalar>)
    ensures |cleaned| == |items|
    ensures forall j :: 0 <= j < |items| ==> cleaned[j] == CleanScalar(items[j])
  {
    cleaned := items;
    var i := 0;
    while i < |items|
      invariant 0 <= i <= |items| && |cleaned| == |items|
      invariant forall j :: 0 <= j < i ==> cleaned[j] == CleanScalar(items[j])
      invariant forall j :: i <= j < |items| ==> cleaned[j] == items[j]
    {
      var value2 := items[i];
      var trimmed := if IsEmpty(value2) then value2 else Str(Trim(ToText(value2)));
      assert trimmed == CleanScalar(items[i]);
      ghost var before := cleaned;
      cleaned := cleaned[i := trimmed];
      forall j | 0 <= j < i ensures cleaned[j] == CleanScalar(items[j]) {
        assert cleaned[j] == before[j];
      }
      i := i + 1;
    }
  }

  /** One step of cleanData()'s outer loop: the new value of `$data[$key]`. */
  method CleanEntry(value: Value) returns (r: Value)
    ensures r == CleanValue(value)
  {
    match value {
      case Scalar(x) =>
        r := if !IsEmpty(x) then Scalar(Str(Trim(ToText(x)))) else value;
      case List(items) =>
        var cleaned := CleanList(items);
        CleanedItems(items, cleaned);
        r := List(cleaned);
    }
  }

  /** A record whose every value is CleanValue of the original's: all clean, nulls kept, and the
      original itself when it was clean already. */
  lemma CleanedRecord(data: Record, r: Record)
    requires r.Keys == data.Keys
    requires forall k :: k in r ==> r[k] == CleanValue(data[k])
    ensures forall k :: k in r ==> IsCleanValue(r[k]) && (IsSet(r[k]) <==> IsSet(data[k]))
    ensures (forall k :: k in data ==> IsCleanValue(data[k])) ==> r == data
  {
    forall k | k in r ensures IsCleanValue(r[k]) && (IsSet(r[k]) <==> IsSet(data[k])) {
      assert r[k] == CleanValue(data[k]);
    }
    if forall k :: k in data ==> IsCleanValue(data[k]) {
      forall k | k in r ensures r[k] == data[k] {
        assert r[k] == CleanValue(data[k]);
      }
    }
  }

  /** cleanData(): every entry of the record rewritten in place. The keys stay the same, every value
      becomes clean, a record that is already clean comes back unchanged (so cleaning twice is cleaning
      once), and no null entry appears or disappears. */
  method CleanData(data: Record) returns (r: Record)
    ensures r.Keys == data.Keys
    ensures forall k :: k in r ==> r[k] == CleanValue(data[k])
    ensures forall k :: k in r ==> IsCleanValue(r[k]) && (IsSet(r[k]) <==> IsSet(data[k]))
    ensures (forall k :: k in data ==> IsCleanValue(data[k])) ==> r == data
  {
    r := data;
    var pending := data.Keys;
    while pending != {}
      invariant pending <= data.Keys && r.Keys == data.Keys
      invariant forall k :: k in data && k !in pending ==> r[k] == CleanValue(data[k])
      invariant forall k :: k in pending ==> r[k] == data[k]
      decreases pending
    {
      var key :| key in pending;
      var value := CleanEntry(data[key]);
      r := r[key := value];
      pending := pending - {key};
    }
    CleanedRecord(data, r);
  }
}
