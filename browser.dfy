/** The two browser stores the console writes to, as key/value maps:
    `localStorage`, shared by the credential store, the auth slice and the theme
    provider, and `URLSearchParams`, which the order table handlers copy and edit. */
module Browser {
  import opened Common

  /** `window.localStorage`: string keys to string values. */
  class LocalStorage {
    var items: map<string, string>

    constructor (initial: map<string, string>)
      ensures items == initial
    {
      items := initial;
    }

    /** `localStorage.getItem(key)`: null when absent. */
    function GetItem(key: string): (r: Option<string>)
      reads this
      ensures r.Some? <==> key in items
      ensures r.Some? ==> r.value == items[key]
    {
      Lookup(items, key)
    }

    /** `localStorage.setItem(key, value)` */
    method SetItem(key: string, value: string)
      modifies this
      ensures items == old(items)[key := value]
    {
      items := items[key := value];
    }

    /** `localStorage.removeItem(key)`; removing an absent key changes nothing. */
    method RemoveItem(key: string)
      modifies this
      ensures items == old(items) - {key}
    {
      items := items - {key};
    }
  }

  /** `URLSearchParams`, with one value per name (the console never appends a
      second value under a name). */
  class SearchParams {
    var entries: map<string, string>

    /** `new URLSearchParams(prev)`: an independent copy. */
    constructor Copy(source: map<string, string>)
      ensures entries == source
    {
      entries := source;
    }

    /** `params.get(name)`: null when absent. */
    function Get(name: string): (r: Option<string>)
      reads this
      ensures r.Some? <==> name in entries
      ensures r.Some? ==> r.value == entries[name]
    {
      Lookup(entries, name)
    }

    /** `params.set(name, value)` replaces any value under `name`. */
    method Set(name: string, value: string)
      modifies this
      ensures entries == old(entries)[name := value]
    {
      entries := entries[name := value];
    }

    /** `params.delete(name)` removes the name; deleting an absent name changes nothing. */
    method Delete(name: string)
      modifies this
      ensures entries == old(entries) - {name}
    {
      entries := entries - {name};
    }
  }

  const PageParam := "page"

  /** `Number(params.get("page")) || 1`, the page the order table and the admin
      panel read from the address: an absent, empty, non-numeric or zero value
      gives page 1. */
  function PageNumber(params: map<string, string>): (p: int)
    ensures p != 0
    ensures PageParam !in params ==> p == 1
  {
    match Lookup(params, PageParam)
    case None => 1
    case Some(text) =>
      match ParseInt(text)
      case Some(n) => if n != 0 then n else 1
      case None => 1
  }

  /** A page written with `toString` reads back as itself, except 0, which reads
      as page 1. */
  lemma PageNumberRoundTrip(params: map<string, string>, n: int)
    ensures PageNumber(params[PageParam := IntToDecimal(n)]) == (if n == 0 then 1 else n)
  {
    IntDecimalRoundTrip(n);
  }

  /** A leading '+' is accepted as `Number` accepts it: "+5" opens page 5, and
      "+0" falls back to page 1 like "0". */
  lemma PlusSignedPage(params: map<string, string>, n: nat)
    ensures PageNumber(params[PageParam := "+" + NatToDecimal(n)]) == (if n == 0 then 1 else n)
  {
    var s := "+" + NatToDecimal(n);
    assert s[1..] == NatToDecimal(n);
    NatDecimalRoundTrip(n);
    assert !AllDigits(s) by { assert !IsDigit(s[0]); }
  }
}
