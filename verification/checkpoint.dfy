/** The checkpoint files written by `save(i)` of both trainers: the full model
    under a fixed name, which each save overwrites, and the parameter state
    under a name carrying the global step, `'model_steps_' + str(i) + '.pt'`.
    Joining the names with the save directory is left out, as is the writing
    itself. */
module Checkpoint {
  import opened Wrappers
  import Schedule

  /** The full-model snapshot, the same on every save. */
  const BackboneFileName: string := "backbone.pt"

  const StepPrefix: string := "model_steps_"
  const StepSuffix: string := ".pt"

  /** An ASCII decimal digit. */
  predicate IsDigit(c: char) {
    '0' <= c <= '9'
  }

  function DigitChar(d: nat): (c: char)
    requires d < 10
    ensures IsDigit(c)
  {
    (48 + d) as char
  }

  function DigitValue(c: char): (d: nat)
    requires IsDigit(c)
    ensures d < 10
  {
    c as int - 48
  }

  predicate AllDigits(s: string) {
    forall i :: 0 <= i < |s| ==> IsDigit(s[i])
  }

  /** What Python's `str` gives for a non-negative int: at least one digit,
      and no leading zero except in "0" itself. */
  predicate IsDecimal(s: string) {
    |s| > 0 && AllDigits(s) && (s[0] == '0' ==> |s| == 1)
  }

  /** `str(n)` for a non-negative `n`. */
  function Decimal(n: nat): (s: string)
    ensures IsDecimal(s)
    ensures s[0] == '0' <==> n == 0
  {
    if n < 10 then [DigitChar(n)] else Decimal(n / 10) + [DigitChar(n % 10)]
  }

  /** The value of a string of decimal digits. */
  function ParseDecimal(s: string): nat
    requires AllDigits(s)
  {
    if s == [] then 0 else ParseDecimal(s[..|s| - 1]) * 10 + DigitValue(s[|s| - 1])
  }

  /** Appending a digit multiplies the value by ten and adds the digit. */
  lemma ParseDecimalSnoc(s: string, c: char)
    requires AllDigits(s) && IsDigit(c)
    ensures AllDigits(s + [c])
    ensures ParseDecimal(s + [c]) == ParseDecimal(s) * 10 + DigitValue(c)
  {
    assert (s + [c])[..|s|] == s;
  }

  /** Reading back the decimal of `n` gives `n`. */
  lemma {:induction false} DecimalRoundTrip(n: nat)
    ensures ParseDecimal(Decimal(n)) == n
  {
    if n < 10 {
      assert [DigitChar(n)] == [] + [DigitChar(n)];
      ParseDecimalSnoc([], DigitChar(n));
    } else {
      DecimalRoundTrip(n / 10);
      ParseDecimalSnoc(Decimal(n / 10), DigitChar(n % 10));
    }
  }

  /** A decimal with a non-zero leading digit denotes a positive number. */
  lemma {:induction false} LeadingDigitPositive(s: string)
    requires |s| > 0 && AllDigits(s) && s[0] != '0'
    ensures ParseDecimal(s) >= 1
    decreases |s|
  {
    if |s| > 1 {
      LeadingDigitPositive(s[..|s| - 1]);
    }
  }

  /** Writing out the value of a decimal gives the decimal back. */
  lemma {:induction false} ParseRoundTrip(s: string)
    requires IsDecimal(s)
    ensures Decimal(ParseDecimal(s)) == s
    decreases |s|
  {
    var c := s[|s| - 1];
    var init := s[..|s| - 1];
    assert s == init + [c];
    if |s| == 1 {
      assert DigitChar(DigitValue(c)) == c;
    } else {
      LeadingDigitPositive(init);
      ParseRoundTrip(init);
      var a := ParseDecimal(init);
      var d := DigitValue(c);
      assert ParseDecimal(s) == a * 10 + d;
      SplitLastDigit(a, d);
      assert DigitChar(d) == c;
      assert Decimal(a * 10 + d) == Decimal(a) + [DigitChar(d)];
    }
  }

  /** Dividing `a * 10 + d` by ten recovers `a`, with remainder `d`. */
  lemma SplitLastDigit(a: nat, d: nat)
    requires d < 10
    ensures (a * 10 + d) / 10 == a && (a * 10 + d) % 10 == d
  {
  }

  /** The per-step checkpoint name. */
  function StepFileName(i: nat): string {
    StepPrefix + Decimal(i) + StepSuffix
  }

  /** Recovers the global step from a per-step checkpoint name; `None` for
      any other name. */
  function ParseStepFileName(name: string): Option<nat> {
    if |name| < |StepPrefix| + |StepSuffix| then None
    else if name[..|StepPrefix|] != StepPrefix || name[|name| - |StepSuffix|..] != StepSuffix then None
    else
      var digits := name[|StepPrefix|..|name| - |StepSuffix|];
      if IsDecimal(digits) then Some(ParseDecimal(digits)) else None
  }

  /** The name of step `i` reads back as `i`. */
  lemma StepFileNameRoundTrip(i: nat)
    ensures ParseStepFileName(StepFileName(i)) == Some(i)
  {
    var name := StepFileName(i);
    var d := Decimal(i);
    assert name[..|StepPrefix|] == StepPrefix;
    assert name[|name| - |StepSuffix|..] == StepSuffix;
    assert name[|StepPrefix|..|name| - |StepSuffix|] == d;
    DecimalRoundTrip(i);
  }

  /** Every name that reads back as a step is the name of that step. */
  lemma ParseStepFileNameSound(name: string)
    ensures ParseStepFileName(name).Some? ==> StepFileName(ParseStepFileName(name).value) == name
  {
    if ParseStepFileName(name).Some? {
      var digits := name[|StepPrefix|..|name| - |StepSuffix|];
      ParseRoundTrip(digits);
      assert name == name[..|StepPrefix|] + digits + name[|name| - |StepSuffix|..];
    }
  }

  /** Distinct global steps give distinct per-step names, so no per-step
      checkpoint of one step overwrites that of another. */
  lemma StepFileNameInjective(a: nat, b: nat)
    ensures StepFileName(a) == StepFileName(b) <==> a == b
  {
    StepFileNameRoundTrip(a);
    StepFileNameRoundTrip(b);
  }

  /** No per-step name is the backbone name. */
  lemma BackboneIsNoStepFile(i: nat)
    ensures StepFileName(i) != BackboneFileName
  {
    assert StepFileName(i)[0] == 'm';
  }

  /** The two files `save(i)` writes, in order. */
  function SaveFiles(i: nat): (files: seq<string>)
    ensures |files| == 2
    ensures files[0] == BackboneFileName
    ensures ParseStepFileName(files[1]) == Some(i)
  {
    StepFileNameRoundTrip(i);
    [BackboneFileName, StepFileName(i)]
  }

  /** The files a sequence of events writes, in order. */
  function WrittenFiles(events: seq<Schedule.Event>): seq<string> {
    if events == [] then []
    else (if events[0].Save? then SaveFiles(events[0].step) else []) + WrittenFiles(events[1..])
  }

  /** The per-step checkpoint of step `k` is written exactly when `save(k)`
      is called. */
  lemma {:induction false} StepFileWrittenIffSaved(events: seq<Schedule.Event>, k: nat)
    ensures StepFileName(k) in WrittenFiles(events) <==> Schedule.Save(k) in events
    decreases |events|
  {
    if events != [] {
      StepFileWrittenIffSaved(events[1..], k);
      assert events == [events[0]] + events[1..];
      if events[0].Save? {
        var files := SaveFiles(events[0].step);
        BackboneIsNoStepFile(k);
        StepFileNameInjective(k, events[0].step);
        assert StepFileName(k) in files <==> k == events[0].step;
      }
    }
  }

  /** In a completed run the per-step checkpoints written by the run are
      those of the positive multiples of the save interval up to the final
      global step, and that of the final global step. */
  lemma RunStepFiles(p: Schedule.Plan, k: nat)
    requires Schedule.Completes(p)
    ensures StepFileName(k) in WrittenFiles(Schedule.Run(p).events) <==>
              || (p.saveSteps != 0 && 1 <= k <= Schedule.Processed(p) && k % p.saveSteps == 0)
              || k == Schedule.Processed(p)
  {
    StepFileWrittenIffSaved(Schedule.Run(p).events, k);
    Schedule.SaveIff(p, k);
  }

  /** One epoch of three batches, saving every step with `total_steps` 3:
      four saves, but only three distinct per-step files, those of steps 1
      to 3, because the final save rewrites the file of step 3. */
  lemma ThreeBatchFiles(k: nat)
    ensures var files := WrittenFiles(Schedule.Run(Schedule.Plan(1, 3, 1, 3)).events);
            && |files| == 8
            && (StepFileName(k) in files <==> 1 <= k <= 3)
  {
    var events := Schedule.Run(Schedule.Plan(1, 3, 1, 3)).events;
    Schedule.ThreeBatchScenario();
    StepFileWrittenIffSaved(events, k);
  }
}
