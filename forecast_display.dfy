/** The hourly forecast card: the per-slot verdict, the short warning text,
    the badge the card shows and the hour text with its day/night icon. */
module ForecastDisplay {
  import opened Common
  import opened Observations

  const RainWarning := "Lluvia"
  const OptimalLabel := "Óptimo"

  /** The short per-slot wording of each check after the rain gate. */
  function SlotText(f: Finding): string {
    match f
    case Cloudy => "Muy nublado"
    case Humid => "Humedad alta"
    case Windy => "Viento fuerte"
    case Cold => "Temperatura baja"
  }

  function SlotTexts(fs: seq<Finding>): (r: seq<string>)
    ensures |r| == |fs| && forall i :: 0 <= i < |fs| ==> r[i] == SlotText(fs[i])
  {
    if fs == [] then [] else SlotTexts(fs[..|fs| - 1]) + [SlotText(fs[|fs| - 1])]
  }

  datatype SlotDecision = SlotDecision(canHang: bool, warnings: seq<string>)

  /** The slot's warnings after the rain gate and the first `k` checks. */
  function SlotWarningsAfter(w: Observation, k: nat): seq<string>
    requires k <= 4
  {
    if k == 0 then PushIf([], IsPrecipitation(w.main), RainWarning)
    else PushIf(SlotWarningsAfter(w, k - 1), Triggers(w, CheckAt(k - 1)), SlotText(CheckAt(k - 1)))
  }

  /** The slot's warnings: "Lluvia" when it rains, then the wording of each
      finding. */
  function SlotWarnings(w: Observation): seq<string> {
    PushIf([], IsPrecipitation(w.main), RainWarning) + SlotTexts(Findings(w))
  }

  /** The verdict for one forecast slot. The slot's local hour is computed
      by the component and never used, so it is not an input here. */
  method ProcessWeatherDecision(item: Observation) returns (d: SlotDecision)
    ensures d.canHang <==> !IsPrecipitation(item.main)
    ensures d.warnings == SlotWarningsAfter(item, 4)
  {
    var canHang := true;
    var warnings: seq<string> := [];

    if item.main == "Rain" || item.main == "Drizzle" || item.main == "Thunderstorm" {
      canHang := false;
      warnings := warnings + [RainWarning];
    }
    assert warnings == SlotWarningsAfter(item, 0);

    if item.clouds.Some? && item.clouds.value > 80 {
      warnings := warnings + [SlotText(Cloudy)];
    }
    assert warnings == SlotWarningsAfter(item, 1);

    if item.humidity > 85.0 {
      warnings := warnings + [SlotText(Humid)];
    }
    assert warnings == SlotWarningsAfter(item, 2);

    if item.windSpeed > 6.94 {
      warnings := warnings + [SlotText(Windy)];
    }
    assert warnings == SlotWarningsAfter(item, 3);

    if item.temp < 10.0 {
      warnings := warnings + [SlotText(Cold)];
    }

    // a conditional yes stays a yes
    if |warnings| > 0 && canHang {
      canHang := true;
    }

    d := SlotDecision(canHang, warnings);
  }

  lemma {:induction false} SlotWarningsAreTexts(w: Observation, k: nat)
    requires k <= 4
    ensures SlotWarningsAfter(w, k) == PushIf([], IsPrecipitation(w.main), RainWarning) + SlotTexts(FindingsAfter(w, k))
  {
    if k > 0 {
      SlotWarningsAreTexts(w, k - 1);
      var fs := FindingsAfter(w, k - 1);
      var c := CheckAt(k - 1);
      if Triggers(w, c) {
        assert (fs + [c])[..|fs|] == fs;
      }
    }
  }

  /** The four wordings differ from one another and from "Lluvia". */
  lemma SlotTextInjective(f: Finding, g: Finding)
    requires SlotText(f) == SlotText(g)
    ensures f == g
  {
    assert |SlotText(f)| == |SlotText(g)| && SlotText(f)[0] == SlotText(g)[0];
  }

  lemma SlotTextNotRain(f: Finding)
    ensures SlotText(f) != RainWarning
  {
    assert |SlotText(f)| != |RainWarning|;
  }

  /** The wordings of distinct findings are distinct, none is "Lluvia",
      and a wording is listed exactly when its finding is. */
  lemma SlotTextsSpec(fs: seq<Finding>)
    requires Distinct(fs)
    ensures Distinct(SlotTexts(fs)) && RainWarning !in SlotTexts(fs)
    ensures forall f :: SlotText(f) in SlotTexts(fs) <==> f in fs
  {
    var ts := SlotTexts(fs);
    forall i, j | 0 <= i < j < |ts| ensures ts[i] != ts[j] {
      if ts[i] == ts[j] { SlotTextInjective(fs[i], fs[j]); }
    }
    forall i | 0 <= i < |ts| ensures ts[i] != RainWarning { SlotTextNotRain(fs[i]); }
    forall f ensures SlotText(f) in ts <==> f in fs {
      if SlotText(f) in ts {
        var i :| 0 <= i < |ts| && ts[i] == SlotText(f);
        SlotTextInjective(fs[i], f);
      }
      if f in fs {
        var i :| 0 <= i < |fs| && fs[i] == f;
        assert ts[i] == SlotText(f);
      }
    }
  }

  /** "Lluvia" when it rains, then the wordings of distinct findings: no
      entry twice, and each wording exactly when its finding is listed. */
  lemma RainThenTextsSpec(rain: bool, fs: seq<Finding>)
    requires Distinct(fs)
    ensures var ws := PushIf([], rain, RainWarning) + SlotTexts(fs);
      && (RainWarning in ws <==> rain)
      && (rain ==> ws[0] == RainWarning)
      && (forall f :: SlotText(f) in ws <==> f in fs)
      && |ws| == (if rain then 1 else 0) + |fs|
      && Distinct(ws)
  {
    SlotTextsSpec(fs);
    var ts := SlotTexts(fs);
    var head := PushIf([], rain, RainWarning);
    var ws := head + ts;
    forall f ensures SlotText(f) in ws <==> SlotText(f) in ts {
      SlotTextNotRain(f);
    }
    forall i, j | 0 <= i < j < |ws| ensures ws[i] != ws[j] {
      if i < |head| {
        assert ws[j] == ts[j - |head|];
      } else {
        assert ws[i] == ts[i - |head|] && ws[j] == ts[j - |head|];
      }
    }
  }

  /** "Lluvia" comes first exactly when it rains; every other warning is
      there exactly when its check fires, in the fixed order, at most once. */
  lemma SlotWarningsSpec(w: Observation)
    ensures RainWarning in SlotWarnings(w) <==> IsPrecipitation(w.main)
    ensures IsPrecipitation(w.main) ==> SlotWarnings(w)[0] == RainWarning
    ensures forall f :: SlotText(f) in SlotWarnings(w) <==> Triggers(w, f)
    ensures |SlotWarnings(w)| == (if IsPrecipitation(w.main) then 1 else 0) + |Findings(w)|
    ensures Distinct(SlotWarnings(w))
  {
    FindingsSpec(w);
    var fs := Findings(w);
    assert Distinct(fs) by {
      forall i, j | 0 <= i < j < |fs| ensures fs[i] != fs[j] {
        assert Rank(fs[i]) < Rank(fs[j]);
      }
    }
    RainThenTextsSpec(IsPrecipitation(w.main), fs);
  }

  /** The warnings of a slot do not depend on its time. */
  lemma SlotVerdictIgnoresTime(w: Observation, dt: int)
    ensures SlotWarnings(w.(dt := dt)) == SlotWarnings(w)
  {
    FindingsIgnoreTime(w, dt, 4);
  }

  // ---------------------------------------------------------------------
  // The warning text and the badge

  /** The text of a slot: "Óptimo", the only warning, or the first warning
      followed by " +" and how many more there are. */
  function FormatWarnings(warnings: seq<string>): (text: string)
    ensures warnings == [] ==> text == OptimalLabel
    ensures |warnings| == 1 ==> text == warnings[0]
    ensures |warnings| > 1 ==> text == warnings[0] + " +" + NatToString(|warnings| - 1)
  {
    if |warnings| == 0 then OptimalLabel
    else if |warnings| > 1 then warnings[0] + " +" + NatToString(|warnings| - 1)
    else warnings[0]
  }

  /** A text with a count starts with the first warning, and the digits
      after " +" read back as the number of the other warnings. */
  lemma FormatWarningsCount(warnings: seq<string>)
    requires |warnings| > 1
    ensures var text := FormatWarnings(warnings);
      var n := |warnings[0]| + 2;
      && |text| > n
      && text[..n] == warnings[0] + " +"
      && AllDigits(text[n..])
      && DigitsValue(text[n..]) == |warnings| - 1
  {
    var text := FormatWarnings(warnings);
    var n := |warnings[0]| + 2;
    assert text[n..] == NatToString(|warnings| - 1);
    NatToStringRoundTrip(|warnings| - 1);
  }

  /** The slot text reads "Óptimo" exactly when the slot has no warning. */
  lemma OptimalLabelIffNoWarning(w: Observation)
    ensures FormatWarnings(SlotWarnings(w)) == OptimalLabel <==> SlotWarnings(w) == []
  {
    var ws := SlotWarnings(w);
    if ws != [] {
      var fs := Findings(w);
      assert ws[0] == RainWarning || (fs != [] && ws[0] == SlotText(fs[0]));
      if |ws| == 1 {
        assert ws[0] != OptimalLabel by {
          assert ws[0] == RainWarning || |ws[0]| != |OptimalLabel|;
          assert RainWarning[0] != OptimalLabel[0];
        }
      } else {
        assert |FormatWarnings(ws)| > |OptimalLabel|;
      }
    }
  }

  /** The badge of a forecast card: green "Óptimo", yellow with the text,
      or red with the text. */
  datatype Badge = Optimal | Caution(text: string) | Blocked(text: string)

  function BadgeFor(d: SlotDecision): Badge {
    if d.canHang then
      if |d.warnings| > 0 then Caution(FormatWarnings(d.warnings)) else Optimal
    else Blocked(FormatWarnings(d.warnings))
  }

  /** For a slot verdict: red exactly when it rains, and then the text
      starts with "Lluvia"; green exactly when no check fires at all;
      yellow otherwise, led by the first finding's wording. */
  lemma BadgeSpec(w: Observation, d: SlotDecision)
    requires d.canHang <==> !IsPrecipitation(w.main)
    requires d.warnings == SlotWarningsAfter(w, 4)
    ensures BadgeFor(d).Blocked? <==> IsPrecipitation(w.main)
    ensures BadgeFor(d).Blocked? ==>
      |BadgeFor(d).text| >= |RainWarning| && BadgeFor(d).text[..|RainWarning|] == RainWarning
    ensures BadgeFor(d).Optimal? <==> !IsPrecipitation(w.main) && Findings(w) == []
    ensures BadgeFor(d).Caution? ==>
      && Findings(w) != []
      && |BadgeFor(d).text| >= |SlotText(Findings(w)[0])|
      && BadgeFor(d).text[..|SlotText(Findings(w)[0])|] == SlotText(Findings(w)[0])
  {
    SlotWarningsAreTexts(w, 4);
    var ws := d.warnings;
    var fs := Findings(w);
    assert ws == PushIf([], IsPrecipitation(w.main), RainWarning) + SlotTexts(fs);
    if ws != [] {
      var text := FormatWarnings(ws);
      assert |text| >= |ws[0]| && text[..|ws[0]|] == ws[0];
    }
  }

  // ---------------------------------------------------------------------
  // The hour text and the day/night icon

  datatype PeriodIcon = Sun | Moon

  /** Daytime runs from 07:00 up to, not including, 20:00. */
  function TimePeriodIcon(hour: int): PeriodIcon {
    if hour >= 7 && hour < 20 then Sun else Moon
  }

  /** A local hour as the card prints it: two digits, zero-padded. */
  function HourLabel(hour: nat): string
    requires hour < 24
  {
    PadStart2(NatToString(hour))
  }

  /** The card parses its own hour text back to choose the icon; the text
      is two digits and reads back as the hour, so the icon is the sun
      exactly for the hours 7 to 19. */
  lemma HourLabelRoundTrip(hour: nat)
    requires hour < 24
    ensures |HourLabel(hour)| == 2 && AllDigits(HourLabel(hour))
    ensures DigitsValue(HourLabel(hour)) == hour
    ensures TimePeriodIcon(DigitsValue(HourLabel(hour))) == Sun <==> 7 <= hour < 20
  {
    var s := NatToString(hour);
    NatToStringRoundTrip(hour);
    if hour < 10 {
      assert |s| == 1;
      LeadingZeroValue(s);
    } else {
      assert |s| == 2 by { assert s == NatToString(hour / 10) + [DigitChar(hour % 10)]; }
    }
  }
}
