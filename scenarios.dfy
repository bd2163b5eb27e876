/** Concrete runs of the pipeline on small payloads. */
module Scenarios {
  import opened Wrappers
  import opened JsText
  import opened Sanitizer
  import opened Dashboard

  /** A label padded by one space on each side trims to its core. */
  lemma TrimPadded(core: string)
    requires core != [] && IsTrimmed(core)
    ensures Trim([' '] + core + [' ']) == core
  {
    var s := [' '] + core + [' '];
    assert s[1..] == core + [' '];
    assert (core + [' '])[..|core|] == core;
  }

  lemma CupLabels()
    ensures SafeContests([Prim("Spring Cup"), Prim("Winter Cup")]) == ["Spring Cup", "Winter Cup"]
  {
    TrimmedIsFixed("Spring Cup");
    TrimmedIsFixed("Winter Cup");
  }

  lemma CupCounts()
    ensures ValidatedCounts([Value(Finite(5.0)), Value(Finite(7.0))]) == Ok([5.0, 7.0])
    ensures Sum([5.0, 7.0]) == 12.0
  {
    var values := ValidatedCounts([Value(Finite(5.0)), Value(Finite(7.0))]).value;
    assert values[0] == 5.0 && values[1] == 7.0;
    assert values == [5.0, 7.0];
    assert [5.0, 7.0][..1] == [5.0];
    assert Sum([5.0]) == 5.0;
  }

  /** Two named contests and counts 5 and "7" (which `Number` turns into 7):
      the chart shows both names and both counts, the totals are 10, 2 and 12. */
  lemma WellFormedPayload()
    ensures var e := Fetch(Resolved(200, Details(Value(Finite(10.0)),
                                                 Items([Prim("Spring Cup"), Prim("Winter Cup")]),
                                                 Items([Value(Finite(5.0)), Value(Finite(7.0))]))),
                           InitialChart, InitialTotals);
            e.chart.options.categories == ["Spring Cup", "Winter Cup"]
            && e.chart.series == [Series(SeriesName, [5.0, 7.0])]
            && e.totals == Totals(Finite(10.0), 2, 12.0)
            && e.notice == None
  {
    CupLabels();
    CupCounts();
  }

  lemma DecimalTen()
    ensures Decimal(10) == "10"
  {
    assert Decimal(1) == "1";
    assert DigitChar(0) == '0';
  }

  /** A null entry at index 2 is labelled by its position. */
  lemma NullEntryAtIndexTwo()
    ensures SanitizeLabel(Falsy, 2) == "Contest 3"
  {
  }

  lemma BlankTrimsToNothing()
    ensures Trim(" \t") == []
  {
    TrimEmptyIff(" \t");
    assert IsWhiteSpace(" \t"[0]) && IsWhiteSpace(" \t"[1]);
  }

  /** An object name that trims to nothing falls back. */
  lemma BlankNameFallsBack()
    ensures SanitizeLabel(Obj(false, NameText(" \t")), 0) == "Contest 1"
  {
    BlankTrimsToNothing();
    assert Fallback(0) == "Contest 1";
  }

  /** A padded object name is trimmed. */
  lemma PaddedNameTrimmed()
    ensures SanitizeLabel(Obj(false, NameText(" Finals ")), 4) == "Finals"
  {
    TrimPadded("Finals");
    assert [' '] + "Finals" + [' '] == " Finals ";
  }

  /** A name that throws while formatting falls back. */
  lemma ThrowingNameFallsBack()
    ensures SanitizeLabel(Obj(false, NameThrows), 9) == "Contest 10"
  {
    DecimalTen();
    assert Fallback(9) == "Contest 10";
  }

  /** A React element falls back whatever its name. */
  lemma ElementFallsBack()
    ensures SanitizeLabel(Obj(true, NameText("Finals")), 0) == "Contest 1"
  {
  }

  /** A primitive that reads like a fallback collides with the fallback of a
      later entry: labels are not distinct in general. */
  lemma FallbackCollidesWithPrimitive()
    ensures SafeContests([Prim("Contest 2"), Falsy]) == ["Contest 2", "Contest 2"]
  {
    TrimmedIsFixed("Contest 2");
    assert Fallback(1) == "Contest 2";
  }

  /** -4, "abc" (which `Number` turns into NaN) and Infinity all validate to 0. */
  lemma BadCountsBecomeZero()
    ensures ValidatedCounts([Value(Finite(-4.0)), Value(NaN), Value(PosInf)]) == Ok([0.0, 0.0, 0.0])
  {
    var raw := [Value(Finite(-4.0)), Value(NaN), Value(PosInf)];
    var r := ValidatedCounts(raw);
    assert raw[0].Value? && raw[1].Value? && raw[2].Value?;
    assert r.value[0] == 0.0 && r.value[1] == 0.0 && r.value[2] == 0.0;
    assert r.value == [0.0, 0.0, 0.0];
  }

  /** Three contests against two counts: the state stays at its initial
      value and the mismatch is reported. */
  lemma MismatchFromInitialState()
    ensures Fetch(Resolved(200, Details(Value(Finite(1.0)), Items([Falsy, Falsy, Falsy]),
                                        Items([Value(Finite(1.0)), Value(Finite(2.0))]))),
                  InitialChart, InitialTotals)
            == Effect(InitialChart, InitialTotals, Some(Notice(MismatchMessage, "error")))
  {
  }

  /** A negative or infinite user count is shown as it is. */
  lemma UsersNotClamped()
    ensures UsersOrZero(Finite(-3.0)) == Finite(-3.0)
    ensures UsersOrZero(PosInf) == PosInf
    ensures UsersOrZero(NaN) == Finite(0.0)
  {
  }
}
