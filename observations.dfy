/** One weather reading from the provider (current conditions or one slot of
    the forecast list), reduced to the fields the verdicts look at, and the
    five threshold checks both display components apply in the same order. */
module Observations {
  import opened Common

  /** `main`: `weather[0].main`; `clouds`: `clouds.all`, absent when the
      `clouds` object is missing; `humidity`: `main.humidity` (%);
      `windSpeed`: `wind.speed` (m/s); `temp`: `main.temp` (degrees C);
      `dt`: seconds since the epoch. */
  datatype Observation = Observation(
    main: string,
    clouds: Option<int>,
    humidity: real,
    windSpeed: real,
    temp: real,
    dt: int)

  /** The rain gate: the only check that can turn the verdict to "no". */
  predicate IsPrecipitation(main: string) {
    main == "Rain" || main == "Drizzle" || main == "Thunderstorm"
  }

  /** The four checks after the rain gate, in the order they run. */
  datatype Finding = Cloudy | Humid | Windy | Cold

  function Rank(f: Finding): nat {
    match f
    case Cloudy => 0
    case Humid => 1
    case Windy => 2
    case Cold => 3
  }

  /** Every threshold is strict; 6.94 m/s is about 25 km/h. */
  predicate Triggers(w: Observation, f: Finding) {
    match f
    case Cloudy => w.clouds.Some? && w.clouds.value > 80
    case Humid => w.humidity > 85.0
    case Windy => w.windSpeed > 6.94
    case Cold => w.temp < 10.0
  }

  /** The check that runs `k`-th after the rain gate. */
  function CheckAt(k: nat): (f: Finding)
    requires k < 4
    ensures Rank(f) == k
  {
    if k == 0 then Cloudy else if k == 1 then Humid else if k == 2 then Windy else Cold
  }

  /** One check of the sequence: a check that fires is appended. */
  function Run(acc: seq<Finding>, w: Observation, f: Finding): seq<Finding> {
    if Triggers(w, f) then acc + [f] else acc
  }

  /** The checks among the first `k` that fire on `w`, in the order they run. */
  function FindingsAfter(w: Observation, k: nat): seq<Finding>
    requires k <= 4
  {
    if k == 0 then [] else Run(FindingsAfter(w, k - 1), w, CheckAt(k - 1))
  }

  /** The checks that fire on `w`, in the order they run. */
  function Findings(w: Observation): seq<Finding> {
    FindingsAfter(w, 4)
  }

  lemma {:induction false} FindingsAfterSpec(w: Observation, k: nat)
    requires k <= 4
    ensures forall f :: f in FindingsAfter(w, k) <==> Triggers(w, f) && Rank(f) < k
    ensures forall i :: 0 <= i < |FindingsAfter(w, k)| ==> Rank(FindingsAfter(w, k)[i]) < k
    ensures forall i, j :: 0 <= i < j < |FindingsAfter(w, k)| ==>
      Rank(FindingsAfter(w, k)[i]) < Rank(FindingsAfter(w, k)[j])
  {
    if k > 0 {
      FindingsAfterSpec(w, k - 1);
      var c := CheckAt(k - 1);
      assert forall f :: Rank(f) == k - 1 ==> f == c by {
        forall f | Rank(f) == k - 1 ensures f == c { match f case _ => }
      }
    }
  }

  /** A check is listed exactly when it fires, and the list follows the fixed
      order clouds, humidity, wind, temperature, so none appears twice. */
  lemma FindingsSpec(w: Observation)
    ensures forall f :: f in Findings(w) <==> Triggers(w, f)
    ensures forall i, j :: 0 <= i < j < |Findings(w)| ==>
      Rank(Findings(w)[i]) < Rank(Findings(w)[j])
  {
    FindingsAfterSpec(w, 4);
    forall f ensures Rank(f) < 4 { match f case _ => }
  }

  /** The checks look at the conditions only, never at the time. */
  lemma {:induction false} FindingsIgnoreTime(w: Observation, dt: int, k: nat)
    requires k <= 4
    ensures FindingsAfter(w.(dt := dt), k) == FindingsAfter(w, k)
  {
    if k > 0 {
      FindingsIgnoreTime(w, dt, k - 1);
    }
  }

  /** A value exactly at a threshold, or a missing cloud object, never fires. */
  lemma ThresholdsAreStrict(w: Observation)
    ensures w.clouds.None? || w.clouds.value <= 80 ==> Cloudy !in Findings(w)
    ensures w.humidity <= 85.0 ==> Humid !in Findings(w)
    ensures w.windSpeed <= 6.94 ==> Windy !in Findings(w)
    ensures w.temp >= 10.0 ==> Cold !in Findings(w)
  {
    FindingsSpec(w);
  }
}
