/** The page component's state: the favourites list and its persisted copy,
    the expanded advice section, and how one load of weather and forecast
    moves `weather`, `forecast`, `error`, `loading` and the stored last city.
    Fetch outcomes and stored values are inputs: nothing here performs I/O. */
module HomePage {
  import opened Common
  import opened Http

  const WeatherDefault := "Error al obtener datos del clima"
  const ForecastDefault := "Error al obtener pronóstico"

  /** How one client-side fetch ended: an answer with its status, its parsed
      body and the body's `error` field, or a thrown error (network failure,
      unparseable body) with its message. */
  datatype Outcome<D> = Answered(status: int, data: D, errorField: Option<string>) | Threw(message: string)

  predicate Succeeded<D>(o: Outcome<D>) {
    o.Answered? && Ok(o.status)
  }

  /** The message `setError` receives for a failed fetch:
      `data.error || fallback`, or the thrown error's message. */
  function FailureText<D>(o: Outcome<D>, fallback: string): (t: string)
    requires !Succeeded(o)
    ensures o.Answered? && Present(o.errorField) ==> t == o.errorField.value
    ensures o.Answered? && !Present(o.errorField) ==> t == fallback
    ensures o.Threw? ==> t == o.message
  {
    match o
    case Threw(message) => message
    case Answered(_, _, e) => if Present(e) then e.value else fallback
  }

  // ---------------------------------------------------------------------
  // Favourites: `favorites.filter(fav => fav !== name)` and
  // `[...favorites, name]`

  /** Every occurrence of `x` dropped, the rest in their order. */
  function Remove(s: seq<string>, x: string): (r: seq<string>)
    ensures |r| <= |s|
    ensures forall y :: y in r <==> y in s && y != x
  {
    if s == [] then []
    else if s[0] == x then Remove(s[1..], x)
    else [s[0]] + Remove(s[1..], x)
  }

  /** The favourites after toggling `name`. */
  function Toggled(favorites: seq<string>, name: string): seq<string> {
    if name in favorites then Remove(favorites, name) else favorites + [name]
  }

  /** Filtering works piece by piece: with `RemoveAbsent` this pins down the
      filter, since only occurrences of `x` are dropped and nothing moves. */
  lemma {:induction false} RemoveAppend(a: seq<string>, b: seq<string>, x: string)
    ensures Remove(a + b, x) == Remove(a, x) + Remove(b, x)
  {
    if a == [] {
      assert a + b == b;
    } else {
      assert (a + b)[1..] == a[1..] + b;
      RemoveAppend(a[1..], b, x);
    }
  }

  lemma {:induction false} RemoveAbsent(s: seq<string>, x: string)
    requires x !in s
    ensures Remove(s, x) == s
  {
    if s != [] {
      assert x !in s[1..];
      RemoveAbsent(s[1..], x);
      assert s == [s[0]] + s[1..];
    }
  }

  /** Dropping an absent name changes nothing; a present one disappears and
      the remaining count of every other name is kept. */
  lemma {:induction false} RemoveCounts(s: seq<string>, x: string)
    ensures multiset(Remove(s, x))[x] == 0
    ensures forall y :: y != x ==> multiset(Remove(s, x))[y] == multiset(s)[y]
  {
    if s != [] {
      RemoveCounts(s[1..], x);
      assert s == [s[0]] + s[1..];
    }
  }

  /** Toggling a present name removes every occurrence and keeps the other
      entries; toggling an absent one appends it at the end. */
  lemma ToggledSpec(favorites: seq<string>, name: string)
    ensures name in favorites ==> name !in Toggled(favorites, name)
    ensures name in favorites ==>
      forall y :: y != name ==> multiset(Toggled(favorites, name))[y] == multiset(favorites)[y]
    ensures name !in favorites ==> Toggled(favorites, name) == favorites + [name]
  {
    RemoveCounts(favorites, name);
  }

  /** Toggling an absent name twice restores the list. */
  lemma ToggleTwiceRestores(favorites: seq<string>, name: string)
    requires name !in favorites
    ensures Toggled(Toggled(favorites, name), name) == favorites
  {
    RemoveAppend(favorites, [name], name);
    RemoveAbsent(favorites, name);
    assert Remove([name], name) == [];
  }

  /** Toggling a present name twice moves it to the end. */
  lemma ToggleTwiceMovesToEnd(favorites: seq<string>, name: string)
    requires name in favorites
    ensures Toggled(Toggled(favorites, name), name) == Remove(favorites, name) + [name]
  {
  }

  /** A duplicate-free list stays duplicate-free. */
  lemma ToggledKeepsDistinct(favorites: seq<string>, name: string)
    requires Distinct(favorites)
    ensures Distinct(Toggled(favorites, name))
  {
    if name in favorites {
      RemoveDistinct(favorites, name);
    }
  }

  lemma {:induction false} RemoveDistinct(s: seq<string>, x: string)
    requires Distinct(s)
    ensures Distinct(Remove(s, x))
  {
    if s != [] {
      assert Distinct(s[1..]) by {
        forall i, j | 0 <= i < j < |s[1..]| ensures s[1..][i] != s[1..][j] {
          assert s[1..][i] == s[i + 1] && s[1..][j] == s[j + 1];
        }
      }
      RemoveDistinct(s[1..], x);
      if s[0] != x {
        assert s[0] !in s[1..];
        var r := [s[0]] + Remove(s[1..], x);
        forall i, j | 0 <= i < j < |r| ensures r[i] != r[j] {
          if i == 0 {
            assert r[j] in Remove(s[1..], x);
          } else {
            assert r[i] == Remove(s[1..], x)[i - 1] && r[j] == Remove(s[1..], x)[j - 1];
          }
        }
      }
    }
  }

  // ---------------------------------------------------------------------
  // The expandable advice sections

  function SectionToggled(expanded: Option<string>, section: string): (r: Option<string>)
    ensures r == None <==> expanded == Some(section)
    ensures r != None ==> r == Some(section)
  {
    if expanded == Some(section) then None else Some(section)
  }

  /** Two toggles of the same section restore the state exactly when that
      section was open or none was; with another one open they close all. */
  lemma SectionToggleTwice(expanded: Option<string>, section: string)
    ensures SectionToggled(SectionToggled(expanded, section), section) == expanded <==>
      expanded == None || expanded == Some(section)
    ensures expanded != None && expanded != Some(section) ==>
      SectionToggled(SectionToggled(expanded, section), section) == None
  {
  }

  // ---------------------------------------------------------------------
  // The component

  class Home<D> {
    var city: string
    var weather: Option<D>
    var forecast: Option<D>
    var loading: bool
    var error: string
    var favorites: seq<string>
    var showApiKeyModal: bool
    var expandedSection: Option<string>
    /** `localStorage` "lastCity" and "favoriteCities" (the latter as the
        list it was written from). */
    var storedLastCity: Option<string>
    var storedFavorites: Option<seq<string>>

    /** The first render, with whatever a previous session stored. */
    constructor(savedCity: Option<string>, savedFavorites: Option<seq<string>>)
      ensures city == "" && weather == None && forecast == None
      ensures !loading && error == "" && favorites == []
      ensures !showApiKeyModal && expandedSection == None
      ensures storedLastCity == savedCity && storedFavorites == savedFavorites
    {
      city := "";
      weather := None;
      forecast := None;
      loading := false;
      error := "";
      favorites := [];
      showApiKeyModal := false;
      expandedSection := None;
      storedLastCity := savedCity;
      storedFavorites := savedFavorites;
    }

    method ToggleFavorite(name: string)
      modifies this
      ensures favorites == Toggled(old(favorites), name)
      ensures storedFavorites == Some(favorites)
      ensures city == old(city) && weather == old(weather) && forecast == old(forecast)
      ensures loading == old(loading) && error == old(error)
      ensures showApiKeyModal == old(showApiKeyModal) && expandedSection == old(expandedSection)
      ensures storedLastCity == old(storedLastCity)
    {
      var newFavorites: seq<string>;
      if name in favorites {
        newFavorites := Remove(favorites, name);
      } else {
        newFavorites := favorites + [name];
      }
      favorites := newFavorites;
      storedFavorites := Some(newFavorites);
    }

    method ToggleSection(section: string)
      modifies this
      ensures expandedSection == SectionToggled(old(expandedSection), section)
      ensures city == old(city) && weather == old(weather) && forecast == old(forecast)
      ensures loading == old(loading) && error == old(error) && favorites == old(favorites)
      ensures showApiKeyModal == old(showApiKeyModal)
      ensures storedLastCity == old(storedLastCity) && storedFavorites == old(storedFavorites)
    {
      if expandedSection == Some(section) {
        expandedSection := None;
      } else {
        expandedSection := Some(section);
      }
    }

    /** The shared body of both loaders: current weather first; the forecast
        only when that succeeded; the last city stored only when both did. */
    method Load(cityName: string, w: Outcome<D>, f: Outcome<D>)
      modifies this
      ensures weather == if Succeeded(w) then Some(w.data) else old(weather)
      ensures forecast == if Succeeded(w) && Succeeded(f) then Some(f.data) else old(forecast)
      ensures storedLastCity == if Succeeded(w) && Succeeded(f) then Some(cityName) else old(storedLastCity)
      ensures error == if !Succeeded(w) then FailureText(w, WeatherDefault)
                       else if !Succeeded(f) then FailureText(f, ForecastDefault)
                       else ""
      ensures showApiKeyModal == (old(showApiKeyModal) || (w.Answered? && w.status == 401))
      ensures !loading
      ensures city == old(city) && favorites == old(favorites) && expandedSection == old(expandedSection)
      ensures storedFavorites == old(storedFavorites)
    {
      loading := true;
      error := "";
      match w {
        case Threw(message) =>
          error := message;
        case Answered(status, data, e) =>
          if !Ok(status) {
            if status == 401 {
              showApiKeyModal := true;
            }
            error := FailureText(w, WeatherDefault);
          } else {
            weather := Some(data);
            match f {
              case Threw(message) =>
                error := message;
              case Answered(fStatus, fData, _) =>
                if !Ok(fStatus) {
                  error := FailureText(f, ForecastDefault);
                } else {
                  forecast := Some(fData);
                  storedLastCity := Some(cityName);
                }
            }
          }
      }
      loading := false;
    }

    /** `fetchWeather`: a blank name changes nothing. */
    method FetchWeather(cityName: string, w: Outcome<D>, f: Outcome<D>)
      modifies this
      ensures Trim(cityName) == "" ==>
        && city == old(city) && weather == old(weather) && forecast == old(forecast)
        && loading == old(loading) && error == old(error)
        && showApiKeyModal == old(showApiKeyModal)
        && storedLastCity == old(storedLastCity)
      ensures Trim(cityName) != "" ==>
        && weather == (if Succeeded(w) then Some(w.data) else old(weather))
        && forecast == (if Succeeded(w) && Succeeded(f) then Some(f.data) else old(forecast))
        && storedLastCity == (if Succeeded(w) && Succeeded(f) then Some(cityName) else old(storedLastCity))
        && error == (if !Succeeded(w) then FailureText(w, WeatherDefault)
                     else if !Succeeded(f) then FailureText(f, ForecastDefault)
                     else "")
        && showApiKeyModal == (old(showApiKeyModal) || (w.Answered? && w.status == 401))
        && !loading
        && city == old(city)
      ensures favorites == old(favorites) && expandedSection == old(expandedSection)
      ensures storedFavorites == old(storedFavorites)
    {
      if Trim(cityName) == "" {
        return;
      }
      Load(cityName, w, f);
    }

    /** `fetchWeatherByCoords`: no blank check, and the shown city is set
        before loading. The coordinates only shape the request URLs. */
    method FetchWeatherByCoords(cityName: string, w: Outcome<D>, f: Outcome<D>)
      modifies this
      ensures city == cityName
      ensures weather == if Succeeded(w) then Some(w.data) else old(weather)
      ensures forecast == if Succeeded(w) && Succeeded(f) then Some(f.data) else old(forecast)
      ensures storedLastCity == if Succeeded(w) && Succeeded(f) then Some(cityName) else old(storedLastCity)
      ensures error == if !Succeeded(w) then FailureText(w, WeatherDefault)
                       else if !Succeeded(f) then FailureText(f, ForecastDefault)
                       else ""
      ensures showApiKeyModal == (old(showApiKeyModal) || (w.Answered? && w.status == 401))
      ensures !loading
      ensures favorites == old(favorites) && expandedSection == old(expandedSection)
      ensures storedFavorites == old(storedFavorites)
    {
      loading := true;
      error := "";
      city := cityName;
      Load(cityName, w, f);
    }

    /** The mount effect: restore the favourites, then the last city and
        load it. */
    method Mount(w: Outcome<D>, f: Outcome<D>)
      modifies this
      ensures favorites == if old(storedFavorites).Some? then old(storedFavorites).value else old(favorites)
      ensures Present(old(storedLastCity)) ==> city == old(storedLastCity).value
      ensures Present(old(storedLastCity)) && Trim(old(storedLastCity).value) != "" ==>
        var saved := old(storedLastCity).value;
        && weather == (if Succeeded(w) then Some(w.data) else old(weather))
        && forecast == (if Succeeded(w) && Succeeded(f) then Some(f.data) else old(forecast))
        && storedLastCity == (if Succeeded(w) && Succeeded(f) then Some(saved) else old(storedLastCity))
        && error == (if !Succeeded(w) then FailureText(w, WeatherDefault)
                     else if !Succeeded(f) then FailureText(f, ForecastDefault)
                     else "")
        && showApiKeyModal == (old(showApiKeyModal) || (w.Answered? && w.status == 401))
        && !loading
      ensures !Present(old(storedLastCity)) || Trim(old(storedLastCity).value) == "" ==>
        && weather == old(weather) && forecast == old(forecast)
        && storedLastCity == old(storedLastCity)
        && loading == old(loading) && error == old(error)
        && showApiKeyModal == old(showApiKeyModal)
      ensures !Present(old(storedLastCity)) ==> city == old(city)
      ensures storedFavorites == old(storedFavorites) && expandedSection == old(expandedSection)
    {
      if storedFavorites.Some? {
        favorites := storedFavorites.value;
      }
      if Present(storedLastCity) {
        var saved := storedLastCity.value;
        city := saved;
        FetchWeather(saved, w, f);
      }
    }

    /** Choosing a favourite shows and loads it. */
    method SelectFavorite(name: string, w: Outcome<D>, f: Outcome<D>)
      modifies this
      ensures city == name
      ensures Trim(name) == "" ==>
        && weather == old(weather) && forecast == old(forecast)
        && loading == old(loading) && error == old(error)
        && showApiKeyModal == old(showApiKeyModal)
        && storedLastCity == old(storedLastCity)
      ensures Trim(name) != "" ==>
        && weather == (if Succeeded(w) then Some(w.data) else old(weather))
        && forecast == (if Succeeded(w) && Succeeded(f) then Some(f.data) else old(forecast))
        && storedLastCity == (if Succeeded(w) && Succeeded(f) then Some(name) else old(storedLastCity))
        && error == (if !Succeeded(w) then FailureText(w, WeatherDefault)
                     else if !Succeeded(f) then FailureText(f, ForecastDefault)
                     else "")
        && showApiKeyModal == (old(showApiKeyModal) || (w.Answered? && w.status == 401))
        && !loading
      ensures favorites == old(favorites) && storedFavorites == old(storedFavorites)
      ensures expandedSection == old(expandedSection)
    {
      city := name;
      FetchWeather(name, w, f);
    }
  }

  /** After any toggle, reloading the page restores exactly the favourites
      in memory. */
  method ToggleThenReload<D>(home: Home<D>, name: string, w: Outcome<D>, f: Outcome<D>)
      returns (reloaded: Home<D>)
    modifies home
    ensures fresh(reloaded)
    ensures home.favorites == Toggled(old(home.favorites), name)
    ensures reloaded.favorites == home.favorites
  {
    home.ToggleFavorite(name);
    reloaded := new Home(home.storedLastCity, home.storedFavorites);
    reloaded.Mount(w, f);
  }
}
