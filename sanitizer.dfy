/** The payload sanitiser of `fetchAdminDashboard`: the label map over the raw
    contests, the count map over the raw submission counts, the submissions
    total and the users total. The untyped JavaScript values are modelled as
    tagged variants instead of being duck-typed. */
module Sanitizer {
  import opened Wrappers
  import opened JsText

  /** One raw entry of `contestSubmissions.contests`, classified by the tests
      the label map makes on it. */
  datatype RawContest =
    | Falsy                                   // null, undefined, false, 0, NaN, ""
    | Func                                    // typeof contest === 'function'
    | Obj(marked: bool, name: NameField)      // any other object
    | Prim(text: string)                      // any other truthy primitive; `text` is its toString()

  /** What reading `contest.name?.toString()` on an object gives. `marked` on
      `Obj` means a truthy `$$typeof` or `prototype.isReactComponent`, or a read
      of one of those that throws (both end in the positional fallback). */
  datatype NameField =
    | NoName                  // name, or what its toString() returns, is null or undefined
    | NameText(text: string)  // the string name.toString() returned
    | NameThrows              // a getter or toString() threw while formatting

  /** The abstract result of JavaScript's `Number(x)`. */
  datatype Num = Finite(value: real) | NaN | PosInf | NegInf

  /** `Number(x)` either yields a number or throws (a Symbol, or an object
      whose valueOf throws); `message` is the thrown error's message. */
  datatype Coercion = Value(n: Num) | Throws(message: string)

  /** The positional label `Contest {index + 1}`. */
  function Fallback(index: nat): (caption: string)
    ensures |caption| > 8 && caption[..8] == "Contest "
    ensures caption[8..] == Decimal(index + 1)
    ensures IsTrimmed(caption)
  {
    "Contest " + Decimal(index + 1)
  }

  /** Two different positions never share a fallback label. */
  lemma FallbackInjective(i: nat, j: nat)
    requires Fallback(i) == Fallback(j)
    ensures i == j
  {
    DecimalInjective(i + 1, j + 1);
  }

  /** The entries the map rejects outright: falsy values, functions and React
      elements or components. */
  predicate Unusable(contest: RawContest) {
    contest.Falsy? || contest.Func? || (contest.Obj? && contest.marked)
  }

  /** The label the map gives the contest entry at position `index`. */
  function SanitizeLabel(contest: RawContest, index: nat): (caption: string)
    ensures Unusable(contest) ==> caption == Fallback(index)
    ensures contest.Obj? && !contest.marked ==>
              if contest.name.NameText? && Trim(contest.name.text) != []
              then caption == Trim(contest.name.text)
              else caption == Fallback(index)
    ensures contest.Prim? ==> caption == Trim(contest.text)
    ensures !contest.Prim? ==> caption != []
    ensures Trim(caption) == caption
  {
    match contest
    case Falsy => Fallback(index)
    case Func => Fallback(index)
    case Obj(marked, name) =>
      if marked then Fallback(index)
      else if name.NameText? && Trim(name.text) != [] then
        TrimIdempotent(name.text);
        Trim(name.text)
      else Fallback(index)
    case Prim(text) =>
      TrimIdempotent(text);
      Trim(text)
  }

  /** A truthy primitive gets no fallback: its label is empty exactly when its
      string form is all white space. */
  lemma PrimitiveLabelEmptyIff(text: string, index: nat)
    ensures SanitizeLabel(Prim(text), index) == [] <==> AllWhiteSpace(text)
  {
    TrimEmptyIff(text);
  }

  /** `rawContests.map(...)`: one label per entry, in backend order. Every
      label is entry i sanitised with index i, so it has no white space at its
      ends, and every unusable entry shows its positional fallback. */
  function SafeContests(raw: seq<RawContest>): (labels: seq<string>)
    ensures |labels| == |raw|
    ensures forall i :: 0 <= i < |raw| ==> labels[i] == SanitizeLabel(raw[i], i)
    ensures forall i :: 0 <= i < |raw| ==> Trim(labels[i]) == labels[i]
    ensures forall i :: 0 <= i < |raw| && Unusable(raw[i]) ==> labels[i] == Fallback(i)
  {
    seq(|raw|, i requires 0 <= i < |raw| => SanitizeLabel(raw[i], i))
  }

  /** Two unusable entries at different positions get different labels, so
      positional labels never collide. */
  lemma SafeContestsFallbacksDistinct(raw: seq<RawContest>, i: nat, j: nat)
    requires i < |raw| && j < |raw| && i != j
    requires Unusable(raw[i]) && Unusable(raw[j])
    ensures SafeContests(raw)[i] != SafeContests(raw)[j]
  {
    if SafeContests(raw)[i] == SafeContests(raw)[j] {
      FallbackInjective(i, j);
    }
  }

  /** The count the map gives one coerced count: the number when it is finite
      and not negative, 0 otherwise. */
  function ValidateCount(n: Num): (count: real)
    ensures count >= 0.0
    ensures n.Finite? && n.value >= 0.0 ==> count == n.value
    ensures !(n.Finite? && n.value >= 0.0) ==> count == 0.0
  {
    if n.Finite? && n.value >= 0.0 then n.value else 0.0
  }

  /** `rawCounts.map(...)`. It runs left to right, so the first entry whose
      coercion throws aborts it with that error; otherwise every entry is
      validated in place. */
  function ValidatedCounts(raw: seq<Coercion>): (r: Result<seq<real>>)
    ensures r.Ok? <==> forall i :: 0 <= i < |raw| ==> raw[i].Value?
    ensures r.Ok? ==> |r.value| == |raw|
    ensures r.Ok? ==> forall i :: 0 <= i < |raw| ==> r.value[i] == ValidateCount(raw[i].n)
    ensures r.Err? ==> exists i :: 0 <= i < |raw| && raw[i] == Throws(r.error)
                                    && forall j :: 0 <= j < i ==> raw[j].Value?
  {
    if raw == [] then Ok([])
    else match raw[0]
      case Throws(m) => Err(m)
      case Value(n) =>
        match ValidatedCounts(raw[1..])
        case Err(m) => Err(m)
        case Ok(rest) => Ok([ValidateCount(n)] + rest)
  }

  /** Every validated count is non-negative. */
  predicate AllNonNegative(counts: seq<real>) {
    forall i :: 0 <= i < |counts| ==> counts[i] >= 0.0
  }

  lemma ValidatedCountsNonNegative(raw: seq<Coercion>)
    requires ValidatedCounts(raw).Ok?
    ensures AllNonNegative(ValidatedCounts(raw).value)
  {
  }

  /** `counts.reduce((a, b) => a + b, 0)`: a left fold from 0. */
  function Sum(counts: seq<real>): (total: real)
    ensures counts == [] ==> total == 0.0
    ensures AllNonNegative(counts) ==> total >= 0.0
  {
    if counts == [] then 0.0 else Sum(counts[..|counts| - 1]) + counts[|counts| - 1]
  }

  /** Summing a concatenation is adding the sums. */
  lemma {:induction false} SumAppend(a: seq<real>, b: seq<real>)
    ensures Sum(a + b) == Sum(a) + Sum(b)
  {
    if b != [] {
      assert (a + b)[..|a + b| - 1] == a + b[..|b| - 1];
      SumAppend(a, b[..|b| - 1]);
    } else {
      assert a + b == a;
    }
  }

  /** The fold agrees with summing from the front, so the order of addition
      does not change the total. */
  lemma SumFront(counts: seq<real>)
    requires counts != []
    ensures Sum(counts) == counts[0] + Sum(counts[1..])
  {
    SumAppend([counts[0]], counts[1..]);
    assert [counts[0]] + counts[1..] == counts;
  }

  /** A sum of non-negative counts is non-negative and at least every count. */
  lemma {:induction false} SumBounds(counts: seq<real>, i: nat)
    requires AllNonNegative(counts)
    requires i < |counts|
    ensures Sum(counts) >= counts[i] >= 0.0
  {
    var n := |counts| - 1;
    if i < n {
      SumBounds(counts[..n], i);
    } else if n > 0 {
      SumBounds(counts[..n], 0);
    }
  }

  /** The total of non-negative counts is 0 for no counts, never negative,
      and 0 exactly when every count is 0. */
  lemma {:induction false} SumNonNegative(counts: seq<real>)
    requires AllNonNegative(counts)
    ensures counts == [] ==> Sum(counts) == 0.0
    ensures Sum(counts) >= 0.0
    ensures Sum(counts) == 0.0 <==> forall i :: 0 <= i < |counts| ==> counts[i] == 0.0
  {
    if counts != [] {
      var n := |counts| - 1;
      assert AllNonNegative(counts[..n]);
      SumNonNegative(counts[..n]);
      assert forall i :: 0 <= i < n ==> counts[..n][i] == counts[i];
    }
  }

  /** `Number(usersCount) || 0`: NaN and zero become 0; every other number,
      negative or infinite, is kept as it is. */
  function UsersOrZero(n: Num): (users: Num)
    ensures users != NaN
    ensures n == NaN || n == Finite(0.0) ==> users == Finite(0.0)
    ensures n != NaN && n != Finite(0.0) ==> users == n
  {
    if n.NaN? || n == Finite(0.0) then Finite(0.0) else n
  }
}
