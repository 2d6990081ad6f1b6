/** The current-conditions verdict of the weather card: a running `canHang`
    flag, two accumulators (`warnings` when hanging is still allowed,
    `reasons` once it is not) and the composed headline message. */
module WeatherDisplay {
  import opened Common
  import opened Observations

  const HangMessage := "¡Podés colgar la ropa!"
  const NoHangPrefix := "No colgar - "
  const RainReason := "Está lloviendo"

  /** Advisory wording, used while `canHang` is still true. */
  function WarningText(f: Finding): string {
    match f
    case Cloudy => "⚠️ Secado lento - Cielo muy nublado (poca radiación solar)"
    case Humid => "⚠️ No recomendado - Humedad muy alta"
    case Windy => "⚠️ Riesgoso - Viento fuerte"
    case Cold => "⚠️ Secado lento - Temperatura baja"
  }

  /** Blocking wording, used once the rain gate has set `canHang` to false. */
  function ReasonText(f: Finding): string {
    match f
    case Cloudy => "Cielo muy nublado"
    case Humid => "Humedad muy alta"
    case Windy => "Viento fuerte"
    case Cold => "Temperatura baja"
  }

  function WarningTexts(fs: seq<Finding>): (r: seq<string>)
    ensures |r| == |fs| && forall i :: 0 <= i < |fs| ==> r[i] == WarningText(fs[i])
  {
    if fs == [] then [] else WarningTexts(fs[..|fs| - 1]) + [WarningText(fs[|fs| - 1])]
  }

  function ReasonTexts(fs: seq<Finding>): (r: seq<string>)
    ensures |r| == |fs| && forall i :: 0 <= i < |fs| ==> r[i] == ReasonText(fs[i])
  {
    if fs == [] then [] else ReasonTexts(fs[..|fs| - 1]) + [ReasonText(fs[|fs| - 1])]
  }

  datatype Decision = Decision(
    canHang: bool,
    message: string,
    warnings: seq<string>,
    reasons: seq<string>)

  /** The "No colgar" headline: the first reason, then the others in
      parentheses, separated by ", ". */
  function NoHangMessage(reasons: seq<string>): (m: string)
    requires |reasons| >= 1
  {
    if |reasons| == 1 then NoHangPrefix + reasons[0]
    else NoHangPrefix + reasons[0] + " (además: " + Join(reasons[1..], ", ") + ")"
  }

  /** The warnings list after the first `k` checks, while hanging is allowed. */
  function Advisories(w: Observation, k: nat): seq<string>
    requires k <= 4
  {
    if k == 0 then []
    else PushIf(Advisories(w, k - 1), Triggers(w, CheckAt(k - 1)), WarningText(CheckAt(k - 1)))
  }

  /** The reasons list after the first `k` checks, once it is raining. */
  function Blockers(w: Observation, k: nat): seq<string>
    requires k <= 4
  {
    if k == 0 then [RainReason]
    else PushIf(Blockers(w, k - 1), Triggers(w, CheckAt(k - 1)), ReasonText(CheckAt(k - 1)))
  }

  /** How the two lists stand after the first `k` checks. */
  ghost predicate Routed(w: Observation, canHang: bool, warnings: seq<string>, reasons: seq<string>, k: nat)
    requires k <= 4
  {
    && (canHang <==> !IsPrecipitation(w.main))
    && warnings == (if canHang then Advisories(w, k) else [])
    && reasons == (if canHang then [] else Blockers(w, k))
  }

  /** One threshold check of the sequence, the `k`-th after the rain gate:
      when it fires, its wording goes to `warnings` while hanging is still
      allowed and to `reasons` once the gate has fired. */
  method ApplyCheck(w: Observation, f: Finding, canHang: bool, warnings: seq<string>, reasons: seq<string>, ghost k: nat)
    returns (warnings': seq<string>, reasons': seq<string>)
    requires k < 4 && f == CheckAt(k)
    requires Routed(w, canHang, warnings, reasons, k)
    ensures Routed(w, canHang, warnings', reasons', k + 1)
  {
    warnings', reasons' := warnings, reasons;
    if Triggers(w, f) {
      if canHang {
        warnings' := warnings' + [WarningText(f)];
      } else {
        reasons' := reasons' + [ReasonText(f)];
      }
    }
  }

  /** The "No colgar" headline as the component composes it: the first
      reason, then the others after "además", joined by ", ". */
  method Headline(reasons: seq<string>) returns (message: string)
    requires |reasons| >= 1
    ensures message == NoHangMessage(reasons)
  {
    if |reasons| == 1 {
      message := NoHangPrefix + reasons[0];
    } else {
      var mainReason := reasons[0];
      var otherReasons := Join(reasons[1..], ", ");
      message := NoHangPrefix + mainReason + " (además: " + otherReasons + ")";
    }
  }

  method ProcessWeatherDecision(w: Observation) returns (d: Decision)
    // the rain gate alone decides, and no later check changes it
    ensures d.canHang <==> !IsPrecipitation(w.main)
    // every finding goes to exactly one list, chosen by the gate
    ensures d.canHang ==> d.reasons == [] && d.warnings == Advisories(w, 4)
    ensures !d.canHang ==> d.warnings == [] && d.reasons == Blockers(w, 4)
    // the headline: rain is always the first reason
    ensures !d.canHang ==> |d.reasons| >= 1 && d.reasons[0] == RainReason
    ensures d.canHang ==> d.message == HangMessage
    ensures !d.canHang ==> d.message == NoHangMessage(d.reasons)
  {
    var warnings: seq<string> := [];
    var canHang := true;
    var message := HangMessage;
    var reasons: seq<string> := [];

    if w.main == "Rain" || w.main == "Drizzle" || w.main == "Thunderstorm" {
      canHang := false;
      reasons := reasons + [RainReason];
    }
    ghost var k: nat := 0;
    assert Routed(w, canHang, warnings, reasons, k);

    // clouds, humidity, wind, temperature, in that order
    warnings, reasons := ApplyCheck(w, Cloudy, canHang, warnings, reasons, k);
    k := k + 1;
    warnings, reasons := ApplyCheck(w, Humid, canHang, warnings, reasons, k);
    k := k + 1;
    warnings, reasons := ApplyCheck(w, Windy, canHang, warnings, reasons, k);
    k := k + 1;
    warnings, reasons := ApplyCheck(w, Cold, canHang, warnings, reasons, k);
    k := k + 1;

    if !canHang {
      BlockersNonEmpty(w, k);
      message := Headline(reasons);
    }

    d := Decision(canHang, message, warnings, reasons);
  }

  /** The reasons list always starts with the rain reason. */
  lemma {:induction false} BlockersNonEmpty(w: Observation, k: nat)
    requires k <= 4
    ensures |Blockers(w, k)| >= 1 && Blockers(w, k)[0] == RainReason
  {
    if k > 0 {
      BlockersNonEmpty(w, k - 1);
    }
  }

  /** The headline starts with "No colgar - " and the first reason, which is
      "Está lloviendo" whenever the rain gate fired. */
  lemma NoHangMessageShape(reasons: seq<string>)
    requires |reasons| >= 1
    ensures NoHangMessage(reasons)[..|NoHangPrefix| + |reasons[0]|] == NoHangPrefix + reasons[0]
    ensures |reasons| == 1 <==> NoHangMessage(reasons) == NoHangPrefix + reasons[0]
  {
    var m := NoHangMessage(reasons);
    if |reasons| > 1 {
      assert |m| > |NoHangPrefix + reasons[0]|;
    }
  }

  predicate OccursAt(text: string, part: string, k: int) {
    0 <= k <= |text| - |part| && text[k..k + |part|] == part
  }

  ghost predicate Contains(text: string, part: string) {
    exists k :: OccursAt(text, part, k)
  }

  lemma ContainsAppend(a: string, part: string, b: string, c: string)
    requires Contains(b, part)
    ensures Contains(a + b + c, part)
  {
    var k :| OccursAt(b, part, k);
    var t := a + b + c;
    assert t[|a| + k..|a| + k + |part|] == b[k..k + |part|];
    assert OccursAt(t, part, |a| + k);
  }

  lemma {:induction false} JoinContains(xs: seq<string>, sep: string, i: nat)
    requires i < |xs|
    ensures Contains(Join(xs, sep), xs[i])
    decreases |xs|
  {
    if |xs| == 1 {
      assert OccursAt(Join(xs, sep), xs[0], 0);
    } else if i == 0 {
      assert Contains(xs[0], xs[0]) by { assert OccursAt(xs[0], xs[0], 0); }
      ContainsAppend("", xs[0], xs[0], sep + Join(xs[1..], sep));
      assert "" + xs[0] + (sep + Join(xs[1..], sep)) == Join(xs, sep);
    } else {
      JoinContains(xs[1..], sep, i - 1);
      ContainsAppend(xs[0] + sep, xs[i], Join(xs[1..], sep), "");
      assert xs[0] + sep + Join(xs[1..], sep) + "" == Join(xs, sep);
    }
  }

  /** Every blocking reason is named in the headline. */
  lemma ReasonsAppearInMessage(reasons: seq<string>, i: nat)
    requires i < |reasons|
    ensures Contains(NoHangMessage(reasons), reasons[i])
  {
    var m := NoHangMessage(reasons);
    if i == 0 {
      NoHangMessageShape(reasons);
      assert m[|NoHangPrefix|..|NoHangPrefix| + |reasons[0]|] == reasons[0];
      assert OccursAt(m, reasons[0], |NoHangPrefix|);
    } else {
      JoinContains(reasons[1..], ", ", i - 1);
      ContainsAppend(NoHangPrefix + reasons[0] + " (además: ", reasons[i], Join(reasons[1..], ", "), ")");
    }
  }

  // ---------------------------------------------------------------------
  // What the two lists say

  lemma {:induction false} AdvisoriesAreWarningTexts(w: Observation, k: nat)
    requires k <= 4
    ensures Advisories(w, k) == WarningTexts(FindingsAfter(w, k))
  {
    if k > 0 {
      AdvisoriesAreWarningTexts(w, k - 1);
      var fs := FindingsAfter(w, k - 1);
      var c := CheckAt(k - 1);
      if Triggers(w, c) {
        assert (fs + [c])[..|fs|] == fs;
      }
    }
  }

  lemma {:induction false} BlockersAreReasonTexts(w: Observation, k: nat)
    requires k <= 4
    ensures Blockers(w, k) == [RainReason] + ReasonTexts(FindingsAfter(w, k))
  {
    if k > 0 {
      BlockersAreReasonTexts(w, k - 1);
      var fs := FindingsAfter(w, k - 1);
      var c := CheckAt(k - 1);
      if Triggers(w, c) {
        assert (fs + [c])[..|fs|] == fs;
      }
    }
  }

  /** An advisory is shown exactly when its check fires, and the advisories
      keep the order clouds, humidity, wind, temperature. */
  lemma AdvisoriesSpec(w: Observation)
    ensures forall f :: WarningText(f) in Advisories(w, 4) <==> Triggers(w, f)
    ensures |Advisories(w, 4)| == |Findings(w)|
    ensures forall i :: 0 <= i < |Findings(w)| ==> Advisories(w, 4)[i] == WarningText(Findings(w)[i])
  {
    AdvisoriesAreWarningTexts(w, 4);
    FindingsSpec(w);
    var fs := Findings(w);
    forall f ensures WarningText(f) in Advisories(w, 4) <==> Triggers(w, f) {
      if WarningText(f) in Advisories(w, 4) {
        var i :| 0 <= i < |fs| && WarningText(fs[i]) == WarningText(f);
        WarningTextInjective(fs[i], f);
      }
    }
  }

  /** Once it rains, the rain reason comes first and every other reason is
      there exactly when its check fires, in the fixed order. */
  lemma BlockersSpec(w: Observation)
    ensures |Blockers(w, 4)| == 1 + |Findings(w)| && Blockers(w, 4)[0] == RainReason
    ensures forall i :: 0 <= i < |Findings(w)| ==> Blockers(w, 4)[i + 1] == ReasonText(Findings(w)[i])
    ensures forall f :: ReasonText(f) in Blockers(w, 4) <==> Triggers(w, f)
  {
    BlockersAreReasonTexts(w, 4);
    FindingsSpec(w);
    var fs := Findings(w);
    var rs := ReasonTexts(fs);
    assert Blockers(w, 4) == [RainReason] + rs;
    forall f ensures ReasonText(f) in Blockers(w, 4) <==> ReasonText(f) in rs {
      ReasonTextNotRain(f);
    }
    forall f ensures ReasonText(f) in rs <==> f in fs {
      if ReasonText(f) in rs {
        var i :| 0 <= i < |rs| && rs[i] == ReasonText(f);
        ReasonTextInjective(fs[i], f);
      }
    }
  }

  /** The four advisories have four different lengths. */
  lemma WarningTextInjective(f: Finding, g: Finding)
    requires WarningText(f) == WarningText(g)
    ensures f == g
  {
    assert |WarningText(f)| == |WarningText(g)|;
  }

  /** The blocking wordings differ in length or in their first letter. */
  lemma ReasonTextInjective(f: Finding, g: Finding)
    requires ReasonText(f) == ReasonText(g)
    ensures f == g
  {
    assert |ReasonText(f)| == |ReasonText(g)| && ReasonText(f)[0] == ReasonText(g)[0];
  }

  lemma ReasonTextNotRain(f: Finding)
    ensures ReasonText(f) != RainReason
  {
    assert |ReasonText(f)| != |RainReason|;
  }

  /** When it rains the headline opens with "No colgar - Está lloviendo". */
  lemma RainHeadline(w: Observation)
    requires IsPrecipitation(w.main)
    ensures |Blockers(w, 4)| >= 1 && |NoHangMessage(Blockers(w, 4))| >= |NoHangPrefix + RainReason|
    ensures NoHangMessage(Blockers(w, 4))[..|NoHangPrefix + RainReason|] == NoHangPrefix + RainReason
  {
    BlockersNonEmpty(w, 4);
    NoHangMessageShape(Blockers(w, 4));
  }
}
