/**
 * The shop toolbar: search, sort and category controls that copy the
 * current URL's query parameters, edit the copy, and navigate to it.
 * Query parameters follow the URL Standard's `URLSearchParams`: an ordered
 * list of name/value pairs where `set` keeps the first pair of a name
 * (appending one if there is none) and drops the rest, and `delete` drops
 * every pair of that name.
 */
module ShopToolbar {
  import opened Wrappers

  datatype Pair = Pair(name: string, value: string)

  predicate HasName(ps: seq<Pair>, name: string) {
    exists i :: 0 <= i < |ps| && ps[i].name == name
  }

  /** `get`: the value of the first pair with this name. */
  function Get(ps: seq<Pair>, name: string): (r: Option<string>)
    ensures r.None? <==> !HasName(ps, name)
    ensures r.Some? ==> Pair(name, r.value) in ps
  {
    if ps == [] then None
    else if ps[0].name == name then Some(ps[0].value)
    else
      var r := Get(ps[1..], name);
      assert forall i :: 1 <= i < |ps| ==> ps[i] == ps[1..][i - 1];
      r
  }

  /** `delete`: every pair with this name goes, the others stay in order. */
  function Delete(ps: seq<Pair>, name: string): (r: seq<Pair>)
    ensures !HasName(r, name)
    ensures forall p :: p in r <==> p in ps && p.name != name
  {
    if ps == [] then []
    else if ps[0].name == name then Delete(ps[1..], name)
    else [ps[0]] + Delete(ps[1..], name)
  }

  /** The first pair with this name takes the value; later ones are dropped. */
  function SetFirst(ps: seq<Pair>, name: string, value: string): seq<Pair> {
    if ps == [] then []
    else if ps[0].name == name then [Pair(name, value)] + Delete(ps[1..], name)
    else [ps[0]] + SetFirst(ps[1..], name, value)
  }

  /** `set`. */
  function Set(ps: seq<Pair>, name: string, value: string): seq<Pair> {
    if HasName(ps, name) then SetFirst(ps, name, value) else ps + [Pair(name, value)]
  }

  lemma {:induction false} DeleteOfConcat(a: seq<Pair>, b: seq<Pair>, name: string)
    ensures Delete(a + b, name) == Delete(a, name) + Delete(b, name)
  {
    if a == [] {
      assert a + b == b;
    } else {
      assert (a + b)[1..] == a[1..] + b;
      DeleteOfConcat(a[1..], b, name);
    }
  }

  lemma {:induction false} DeleteTwice(ps: seq<Pair>, name: string)
    ensures Delete(Delete(ps, name), name) == Delete(ps, name)
  {
    if ps != [] {
      DeleteTwice(ps[1..], name);
    }
  }

  lemma {:induction false} GetAfterDeleteOther(ps: seq<Pair>, name: string, other: string)
    requires other != name
    ensures Get(Delete(ps, name), other) == Get(ps, other)
  {
    if ps != [] {
      GetAfterDeleteOther(ps[1..], name, other);
    }
  }

  lemma {:induction false} SetFirstEffect(ps: seq<Pair>, name: string, value: string)
    requires HasName(ps, name)
    ensures Get(SetFirst(ps, name, value), name) == Some(value)
    ensures forall other :: other != name ==> Get(SetFirst(ps, name, value), other) == Get(ps, other)
    ensures Delete(SetFirst(ps, name, value), name) == Delete(ps, name)
  {
    if ps[0].name == name {
      var r := SetFirst(ps, name, value);
      assert r[1..] == Delete(ps[1..], name);
      forall other | other != name ensures Get(r, other) == Get(ps, other) {
        GetAfterDeleteOther(ps[1..], name, other);
      }
      DeleteTwice(ps[1..], name);
    } else {
      assert HasName(ps[1..], name) by {
        var i :| 0 <= i < |ps| && ps[i].name == name;
        assert ps[1..][i - 1] == ps[i];
      }
      SetFirstEffect(ps[1..], name, value);
    }
  }

  /** After `set`, `get` of that name gives the new value and every other name reads as before. */
  lemma SetEffect(ps: seq<Pair>, name: string, value: string)
    ensures Get(Set(ps, name, value), name) == Some(value)
    ensures forall other :: other != name ==> Get(Set(ps, name, value), other) == Get(ps, other)
  {
    if HasName(ps, name) {
      SetFirstEffect(ps, name, value);
    } else {
      forall other ensures Get(ps + [Pair(name, value)], other) == if other == name then Some(value) else Get(ps, other) {
        GetOfAppend(ps, Pair(name, value), other);
      }
    }
  }

  /** `set` changes only the pairs of its name: with those removed, the list is as before, in order. */
  lemma SetTouchesOnlyItsName(ps: seq<Pair>, name: string, value: string)
    ensures Delete(Set(ps, name, value), name) == Delete(ps, name)
  {
    if HasName(ps, name) {
      SetFirstEffect(ps, name, value);
    } else {
      DeleteOfConcat(ps, [Pair(name, value)], name);
      assert Delete([Pair(name, value)], name) == [];
    }
  }

  lemma {:induction false} GetOfAppend(ps: seq<Pair>, p: Pair, name: string)
    ensures Get(ps + [p], name) == if HasName(ps, name) then Get(ps, name) else if p.name == name then Some(p.value) else None
  {
    if ps == [] {
      assert ps + [p] == [p];
    } else {
      assert (ps + [p])[1..] == ps[1..] + [p];
      GetOfAppend(ps[1..], p, name);
      if !HasName(ps[1..], name) && ps[0].name != name {
        assert !HasName(ps, name) by {
          forall i | 0 <= i < |ps| ensures ps[i].name != name {
            if i > 0 { assert ps[i] == ps[1..][i - 1]; }
          }
        }
      }
      if HasName(ps[1..], name) {
        var i :| 0 <= i < |ps[1..]| && ps[1..][i].name == name;
        assert ps[i + 1].name == name;
      }
    }
  }

  /** A parameter list as a mutable `URLSearchParams` object copied from the current URL. */
  class SearchParamList {
    var pairs: seq<Pair>

    constructor (from: seq<Pair>)
      ensures pairs == from
    {
      pairs := from;
    }

    method SetParam(name: string, value: string)
      modifies this
      ensures pairs == Set(old(pairs), name, value)
    {
      pairs := Set(pairs, name, value);
    }

    method DeleteParam(name: string)
      modifies this
      ensures pairs == Delete(old(pairs), name)
    {
      pairs := Delete(pairs, name);
    }
  }

  /** The toolbar's fields as first rendered from the URL: `q`, `sort` and `category` with their fallbacks. */
  datatype Controls = Controls(searchTerm: string, sort: string, category: string)

  /** `searchParams.get(x) || fallback`. */
  function GetOr(ps: seq<Pair>, name: string, fallback: string): string {
    match Get(ps, name)
    case Some(v) => if v == "" then fallback else v
    case None => fallback
  }

  function InitialControls(url: seq<Pair>): (c: Controls)
    ensures !HasName(url, "q") ==> c.searchTerm == ""
    ensures !HasName(url, "sort") ==> c.sort == "date_desc"
    ensures !HasName(url, "category") ==> c.category == "all"
    ensures c.sort != "" && c.category != ""
  {
    Controls(GetOr(url, "q", ""), GetOr(url, "sort", "date_desc"), GetOr(url, "category", "all"))
  }

  /** The URL the search effect pushes for a settled term: `q` set or dropped, then `page` set to '1'. */
  function Settle(ps: seq<Pair>, term: string): seq<Pair> {
    Set(if term != "" then Set(ps, "q", term) else Delete(ps, "q"), "page", "1")
  }

  /** After the search effect, `q` reads as the term (none when empty), page is '1', and other names are kept. */
  lemma SettleEffect(ps: seq<Pair>, term: string)
    ensures Get(Settle(ps, term), "q") == (if term != "" then Some(term) else None)
    ensures Get(Settle(ps, term), "page") == Some("1")
    ensures forall other :: other != "q" && other != "page" ==> Get(Settle(ps, term), other) == Get(ps, other)
  {
    var mid := if term != "" then Set(ps, "q", term) else Delete(ps, "q");
    if term != "" {
      SetEffect(ps, "q", term);
    } else {
      forall other | other != "q" ensures Get(mid, other) == Get(ps, other) {
        GetAfterDeleteOther(ps, "q", other);
      }
    }
    SetEffect(mid, "page", "1");
  }

  /**
   * The effect runs once when the toolbar mounts, with the URL's own search
   * term: whatever page the URL asked for, the mounted toolbar is on page 1.
   */
  lemma MountResetsPage(url: seq<Pair>)
    ensures Get(Settle(url, InitialControls(url).searchTerm), "page") == Some("1")
  {
    SettleEffect(url, InitialControls(url).searchTerm);
  }

  /** A direct load of `/shop?page=3` ends on page 1. */
  lemma DirectLoadOfPageThree()
    ensures var url := [Pair("page", "3")];
      && Get(url, "page") == Some("3")
      && Get(Settle(url, InitialControls(url).searchTerm), "page") == Some("1")
  {
    MountResetsPage([Pair("page", "3")]);
  }

  /** The search effect guarded to run only when the settled term differs from the URL's `q`. */
  function SettleOnChange(ps: seq<Pair>, term: string): seq<Pair> {
    if term == GetOr(ps, "q", "") then ps else Settle(ps, term)
  }

  /**
   * With the guard, mounting keeps the URL and so the requested page, while
   * a new search term still sets `q` and goes back to page 1.
   */
  lemma SettleOnChangeKeepsLoadedPage(url: seq<Pair>, term: string)
    ensures SettleOnChange(url, InitialControls(url).searchTerm) == url
    ensures Get(SettleOnChange(url, InitialControls(url).searchTerm), "page") == Get(url, "page")
    ensures term != GetOr(url, "q", "") ==>
      && Get(SettleOnChange(url, term), "q") == (if term != "" then Some(term) else None)
      && Get(SettleOnChange(url, term), "page") == Some("1")
  {
    if term != GetOr(url, "q", "") {
      SettleEffect(url, term);
    }
  }

  /** The toolbar: its fields and the URL the router shows. */
  class Toolbar {
    var controls: Controls
    var url: seq<Pair>

    /** Mounting reads the controls from the URL, then the search effect runs with the initial term. */
    constructor (initialUrl: seq<Pair>)
      ensures controls == InitialControls(initialUrl)
      ensures url == Settle(initialUrl, InitialControls(initialUrl).searchTerm)
    {
      controls := InitialControls(initialUrl);
      url := initialUrl;
      new;
      SearchSettled(controls.searchTerm);
    }

    /** The search effect, run with the settled search term: set or drop `q`, and go back to page 1. */
    method SearchSettled(term: string)
      modifies this`url
      ensures url == Settle(old(url), term)
      ensures Get(url, "q") == (if term != "" then Some(term) else None)
      ensures Get(url, "page") == Some("1")
      ensures forall other :: other != "q" && other != "page" ==> Get(url, other) == Get(old(url), other)
    {
      var params := new SearchParamList(url);
      if term != "" {
        params.SetParam("q", term);
      } else {
        params.DeleteParam("q");
      }
      params.SetParam("page", "1");
      SettleEffect(old(url), term);
      url := params.pairs;
    }

    /** `handleSortChange`: only `sort` changes; the page number and the other parameters stay. */
    method HandleSortChange(value: string)
      modifies this`controls, this`url
      ensures controls == old(controls).(sort := value)
      ensures Get(url, "sort") == Some(value)
      ensures forall other :: other != "sort" ==> Get(url, other) == Get(old(url), other)
      ensures Delete(url, "sort") == Delete(old(url), "sort")
    {
      controls := controls.(sort := value);
      var params := new SearchParamList(url);
      params.SetParam("sort", value);
      SetEffect(old(url), "sort", value);
      SetTouchesOnlyItsName(old(url), "sort", value);
      url := params.pairs;
    }

    /** `handleCategoryChange`: 'all' drops the filter, anything else sets it; back to page 1. */
    method HandleCategoryChange(value: string)
      modifies this`controls, this`url
      ensures controls == old(controls).(category := value)
      ensures Get(url, "category") == (if value == "all" then None else Some(value))
      ensures Get(url, "page") == Some("1")
      ensures forall other :: other != "category" && other != "page" ==> Get(url, other) == Get(old(url), other)
    {
      controls := controls.(category := value);
      var params := new SearchParamList(url);
      if value == "all" {
        params.DeleteParam("category");
        forall other | other != "category" ensures Get(params.pairs, other) == Get(old(url), other) {
          GetAfterDeleteOther(old(url), "category", other);
        }
      } else {
        params.SetParam("category", value);
        SetEffect(old(url), "category", value);
      }
      ghost var mid := params.pairs;
      params.SetParam("page", "1");
      SetEffect(mid, "page", "1");
      url := params.pairs;
    }
  }
}
