/**
  The country-code list of hooks/useCountryCodes.js: the REST Countries
  records are turned into dial-code records, those without a dial code are
  dropped, the rest are sorted by dial code and only the first record of each
  dial code is kept. The fetch is an input: `FetchSettled` receives how it
  ended.
*/
module CountryCodes {
  import opened Wrappers
  import opened Sequences

  /** The fields of one REST Countries record that the hook reads. */
  datatype Country = Country(
    commonName: string,
    cca2: string,
    flagSvg: string,
    root: Option<string>,
    suffixes: Option<seq<string>>)

  /** One entry of the phone input's dial-code list. */
  datatype CountryCode = CountryCode(name: string, code: string, flag: string, dialCode: string)

  /** The first suffix, or "" when the list is missing or empty. */
  function FirstSuffix(suffixes: Option<seq<string>>): (s: string)
    ensures suffixes.None? || suffixes.value == [] ==> s == ""
    ensures suffixes.Some? && suffixes.value != [] ==> s == suffixes.value[0]
  {
    if suffixes.Some? && |suffixes.value| > 0 then suffixes.value[0] else ""
  }

  /** The dial code of a record: its root followed by its first suffix; none without a non-empty root. */
  function DialCode(c: Country): (d: Option<string>)
    ensures d.Some? <==> c.root.Some? && c.root.value != ""
    ensures d.Some? ==> d.value != "" && d.value == c.root.value + FirstSuffix(c.suffixes)
  {
    if c.root.Some? && |c.root.value| > 0 then Some(c.root.value + FirstSuffix(c.suffixes)) else None
  }

  /** The `map` callback: the dial-code record of a country, or nothing. */
  function ToCode(c: Country): (r: Option<CountryCode>)
    ensures r.Some? <==> DialCode(c).Some?
    ensures r.Some? ==> r.value == CountryCode(c.commonName, c.cca2, c.flagSvg, DialCode(c).value)
  {
    match DialCode(c)
    case None => None
    case Some(d) => Some(CountryCode(c.commonName, c.cca2, c.flagSvg, d))
  }

  /** `json.map(...).filter(Boolean)`: the records of the countries that have a dial code, in input order. */
  function ParseCountries(json: seq<Country>): (r: seq<CountryCode>)
    ensures forall x :: x in r ==> x.dialCode != "" && exists c :: c in json && ToCode(c) == Some(x)
    ensures forall c :: c in json && DialCode(c).Some? ==> ToCode(c).value in r
    ensures |r| <= |json|
  {
    if json == [] then []
    else
      var rest := ParseCountries(json[1..]);
      assert forall c :: c in json[1..] ==> c in json;
      assert forall c :: c in json ==> c == json[0] || c in json[1..];
      match ToCode(json[0])
      case None => rest
      case Some(x) => [x] + rest
  }

  /** A lone country gives its record when it has a dial code, and nothing otherwise. */
  lemma ParseOneCountry(c: Country)
    ensures ParseCountries([c]) == if DialCode(c).Some? then [ToCode(c).value] else []
  {
    assert [c][1..] == [];
  }

  /**
    Parsing works country by country: the records of a concatenation are the
    records of its first part followed by those of its second, so the output
    keeps the input order and one record per country with a dial code.
  */
  lemma {:induction false} ParseCountriesAppend(a: seq<Country>, b: seq<Country>)
    ensures ParseCountries(a + b) == ParseCountries(a) + ParseCountries(b)
  {
    if a == [] {
      assert a + b == b;
    } else {
      assert (a + b)[0] == a[0];
      assert (a + b)[1..] == a[1..] + b;
      ParseCountriesAppend(a[1..], b);
    }
  }

  /** The order used for sorting: lexicographic order on strings, character by character, which is Unicode code-point order. */
  predicate LessEq(a: string, b: string)
  {
    a == [] || (b != [] && (a[0] < b[0] || (a[0] == b[0] && LessEq(a[1..], b[1..]))))
  }

  lemma {:induction false} LessEqTotal(a: string, b: string)
    ensures LessEq(a, b) || LessEq(b, a)
  {
    if a != [] && b != [] && a[0] == b[0] {
      LessEqTotal(a[1..], b[1..]);
    }
  }

  lemma {:induction false} LessEqTransitive(a: string, b: string, c: string)
    requires LessEq(a, b) && LessEq(b, c)
    ensures LessEq(a, c)
  {
    if a != [] && b != [] && c != [] && a[0] == b[0] && b[0] == c[0] {
      LessEqTransitive(a[1..], b[1..], c[1..]);
    }
  }

  lemma {:induction false} LessEqAntisymmetric(a: string, b: string)
    requires LessEq(a, b) && LessEq(b, a)
    ensures a == b
  {
    if a != [] && b != [] {
      LessEqAntisymmetric(a[1..], b[1..]);
      assert a == [a[0]] + a[1..] && b == [b[0]] + b[1..];
    }
  }

  /** Ascending by dial code. */
  predicate Sorted(s: seq<CountryCode>)
  {
    forall i, j :: 0 <= i < j < |s| ==> LessEq(s[i].dialCode, s[j].dialCode)
  }

  /** The records of `s` with dial code `d`, in their order in `s`. */
  function WithCode(s: seq<CountryCode>, d: string): (r: seq<CountryCode>)
    ensures forall x :: x in r ==> x in s && x.dialCode == d
  {
    if s == [] then []
    else if s[0].dialCode == d then [s[0]] + WithCode(s[1..], d)
    else WithCode(s[1..], d)
  }

  /** Places `x` before the first element whose dial code is not below its own. */
  function Insert(x: CountryCode, t: seq<CountryCode>): (r: seq<CountryCode>)
    ensures multiset(r) == multiset(t) + multiset{x}
  {
    if t == [] || LessEq(x.dialCode, t[0].dialCode) then [x] + t
    else
      assert t == [t[0]] + t[1..];
      [t[0]] + Insert(x, t[1..])
  }

  /** Inserting into a sorted list keeps it sorted. */
  lemma {:induction false} InsertSorted(x: CountryCode, t: seq<CountryCode>)
    requires Sorted(t)
    ensures Sorted(Insert(x, t))
  {
    var r := Insert(x, t);
    if t == [] || LessEq(x.dialCode, t[0].dialCode) {
      forall j | 1 <= j < |r| ensures LessEq(x.dialCode, r[j].dialCode) {
        if j > 1 {
          LessEqTransitive(x.dialCode, t[0].dialCode, t[j - 1].dialCode);
        }
      }
    } else {
      var rest := Insert(x, t[1..]);
      assert Sorted(t[1..]);
      InsertSorted(x, t[1..]);
      assert t == [t[0]] + t[1..];
      LessEqTotal(x.dialCode, t[0].dialCode);
      forall j | 1 <= j < |r| ensures LessEq(t[0].dialCode, r[j].dialCode) {
        assert r[j] == rest[j - 1];
        assert r[j] in multiset(rest);
        if r[j] != x {
          assert r[j] in multiset(t[1..]);
          var k :| 0 <= k < |t[1..]| && t[1..][k] == r[j];
          assert t[k + 1] == r[j];
        }
      }
    }
  }

  /** `Array.prototype.sort` with the dial-code comparator, which is stable. */
  function SortByDialCode(s: seq<CountryCode>): (r: seq<CountryCode>)
    ensures multiset(r) == multiset(s)
    ensures Sorted(r)
  {
    if s == [] then []
    else
      assert s == [s[0]] + s[1..];
      var t := SortByDialCode(s[1..]);
      InsertSorted(s[0], t);
      Insert(s[0], t)
  }

  /** Inserting `x` keeps every dial code's records in order, with `x` first among its own. */
  lemma {:induction false} InsertWithCode(x: CountryCode, t: seq<CountryCode>, d: string)
    ensures WithCode(Insert(x, t), d) == (if x.dialCode == d then [x] else []) + WithCode(t, d)
  {
    if t == [] || LessEq(x.dialCode, t[0].dialCode) {
      assert ([x] + t)[1..] == t;
    } else {
      LessEqReflexive(x.dialCode);
      InsertWithCode(x, t[1..], d);
      assert ([t[0]] + Insert(x, t[1..]))[1..] == Insert(x, t[1..]);
    }
  }

  lemma {:induction false} LessEqReflexive(a: string)
    ensures LessEq(a, a)
  {
    if a != [] {
      LessEqReflexive(a[1..]);
    }
  }

  /** The sort is stable: the records of each dial code keep their input order. */
  lemma {:induction false} SortIsStable(s: seq<CountryCode>, d: string)
    ensures WithCode(SortByDialCode(s), d) == WithCode(s, d)
  {
    if s != [] {
      SortIsStable(s[1..], d);
      InsertWithCode(s[0], SortByDialCode(s[1..]), d);
    }
  }

  /** The set of dial codes occurring in `s`. */
  function Codes(s: seq<CountryCode>): set<string>
  {
    set i | 0 <= i < |s| :: s[i].dialCode
  }

  /** No dial code occurs twice. */
  predicate DistinctCodes(s: seq<CountryCode>)
  {
    forall i, j :: 0 <= i < j < |s| ==> s[i].dialCode != s[j].dialCode
  }

  /** Appending one record adds its dial code to the set. */
  lemma CodesSnoc(s: seq<CountryCode>, x: CountryCode)
    ensures Codes(s + [x]) == Codes(s) + {x.dialCode}
  {
    var sx := s + [x];
    forall d | d in Codes(sx) ensures d in Codes(s) + {x.dialCode} {
      var i :| 0 <= i < |sx| && sx[i].dialCode == d;
      if i < |s| { assert s[i] == sx[i]; }
    }
    forall d | d in Codes(s) ensures d in Codes(sx) {
      var i :| 0 <= i < |s| && s[i].dialCode == d;
      assert sx[i] == s[i];
    }
    assert sx[|s|] == x;
  }

  /** The first record of each dial code, in order: a record is kept iff no earlier one has its dial code. */
  function KeepFirst(s: seq<CountryCode>): (r: seq<CountryCode>)
    ensures |r| <= |s|
    ensures s != [] ==> r != [] && r[0] == s[0]
  {
    if s == [] then []
    else
      var front := s[..|s| - 1];
      var last := s[|s| - 1];
      if last.dialCode in Codes(front) then KeepFirst(front) else KeepFirst(front) + [last]
  }

  /** The kept records are a subsequence with the same dial codes, each occurring once. */
  lemma {:induction false} KeepFirstFacts(s: seq<CountryCode>)
    ensures IsSubsequence(KeepFirst(s), s)
    ensures Codes(KeepFirst(s)) == Codes(s)
    ensures DistinctCodes(KeepFirst(s))
  {
    if s != [] {
      var front := s[..|s| - 1];
      var last := s[|s| - 1];
      var p := KeepFirst(front);
      KeepFirstFacts(front);
      assert s == front + [last];
      SubsequenceAppend(p, front, last);
      CodesSnoc(front, last);
      CodesSnoc(p, last);
      assert forall i :: 0 <= i < |p| ==> p[i].dialCode in Codes(p);
    }
  }

  /** A sorted list stays sorted when only the first record of each dial code is kept. */
  lemma {:induction false} KeepFirstSorted(s: seq<CountryCode>)
    requires Sorted(s)
    ensures Sorted(KeepFirst(s))
  {
    if s != [] {
      var front := s[..|s| - 1];
      var last := s[|s| - 1];
      assert Sorted(front) by {
        forall i, j | 0 <= i < j < |front| ensures LessEq(front[i].dialCode, front[j].dialCode) {
          assert front[i] == s[i] && front[j] == s[j];
        }
      }
      KeepFirstSorted(front);
      var p := KeepFirst(front);
      if KeepFirst(s) != p {
        KeepFirstFacts(front);
        SubsequenceMembers(p, front);
        forall i | 0 <= i < |p| ensures LessEq(p[i].dialCode, last.dialCode) {
          assert p[i] in front;
          var k :| 0 <= k < |front| && front[k] == p[i];
          assert s[k] == p[i];
        }
      }
    }
  }

  /** The kept record of each dial code is the earliest record in `s` with that dial code. */
  lemma {:induction false} KeepFirstEarliest(s: seq<CountryCode>, j: nat)
    requires j < |KeepFirst(s)|
    ensures exists i :: (0 <= i < |s| && s[i] == KeepFirst(s)[j]
                         && forall i' :: 0 <= i' < i ==> s[i'].dialCode != s[i].dialCode)
  {
    var front := s[..|s| - 1];
    var last := s[|s| - 1];
    var p := KeepFirst(front);
    if j < |p| {
      KeepFirstEarliest(front, j);
      var i :| 0 <= i < |front| && front[i] == p[j]
        && forall i' :: 0 <= i' < i ==> front[i'].dialCode != front[i].dialCode;
      assert s[i] == front[i];
      assert forall i' :: 0 <= i' < i ==> s[i'] == front[i'];
    } else {
      assert KeepFirst(s) == p + [last] && KeepFirst(s)[j] == last;
      forall i' | 0 <= i' < |s| - 1 ensures s[i'].dialCode != last.dialCode {
        assert front[i'] == s[i'];
        assert s[i'].dialCode in Codes(front);
      }
    }
  }

  /** The first element of a list with a given dial code heads that dial code's records. */
  lemma {:induction false} EarliestHeadsWithCode(s: seq<CountryCode>, i: nat)
    requires i < |s|
    requires forall i' :: 0 <= i' < i ==> s[i'].dialCode != s[i].dialCode
    ensures WithCode(s, s[i].dialCode) != [] && WithCode(s, s[i].dialCode)[0] == s[i]
  {
    if i > 0 {
      EarliestHeadsWithCode(s[1..], i - 1);
    }
  }

  /** The dial-code records as the hook stores them: parsed, sorted, one per dial code. */
  function CountryList(json: seq<Country>): seq<CountryCode>
  {
    KeepFirst(SortByDialCode(ParseCountries(json)))
  }

  /** The stored list is ascending by dial code and no dial code occurs twice. */
  lemma CountryListSortedAndDistinct(json: seq<Country>)
    ensures Sorted(CountryList(json)) && DistinctCodes(CountryList(json))
  {
    KeepFirstSorted(SortByDialCode(ParseCountries(json)));
    KeepFirstFacts(SortByDialCode(ParseCountries(json)));
  }

  /** Every dial code of the input occurs in the stored list. */
  lemma CountryListCoversInput(json: seq<Country>)
    ensures forall c :: c in json && DialCode(c).Some? ==> DialCode(c).value in Codes(CountryList(json))
  {
    var sorted := SortByDialCode(ParseCountries(json));
    KeepFirstFacts(sorted);
    forall c | c in json && DialCode(c).Some? ensures DialCode(c).value in Codes(sorted) {
      var x := ToCode(c).value;
      assert x in multiset(sorted);
      var i :| 0 <= i < |sorted| && sorted[i] == x;
    }
  }

  /** Every stored record was built from a country of the input. */
  lemma CountryListFromInput(json: seq<Country>)
    ensures forall x :: x in CountryList(json) ==> exists c :: c in json && ToCode(c) == Some(x)
  {
    var parsed := ParseCountries(json);
    var sorted := SortByDialCode(parsed);
    KeepFirstFacts(sorted);
    SubsequenceMembers(KeepFirst(sorted), sorted);
    forall x | x in KeepFirst(sorted) ensures x in parsed {
      assert x in multiset(sorted);
    }
  }

  /**
    The record stored for a dial code is the earliest one of the sorted list
    and, since the sort is stable, the first country with that dial code in the
    input.
  */
  lemma CountryListKeepsFirstOfInput(json: seq<Country>, j: nat)
    requires j < |CountryList(json)|
    ensures WithCode(ParseCountries(json), CountryList(json)[j].dialCode) != []
    ensures CountryList(json)[j] == WithCode(ParseCountries(json), CountryList(json)[j].dialCode)[0]
  {
    var parsed := ParseCountries(json);
    var sorted := SortByDialCode(parsed);
    var data := KeepFirst(sorted);
    KeepFirstEarliest(sorted, j);
    var i :| 0 <= i < |sorted| && sorted[i] == data[j]
      && forall i' :: 0 <= i' < i ==> sorted[i'].dialCode != sorted[i].dialCode;
    EarliestHeadsWithCode(sorted, i);
    SortIsStable(parsed, data[j].dialCode);
  }

  /** One more record: it is kept iff its dial code has not occurred yet. */
  lemma KeepFirstSnoc(s: seq<CountryCode>, x: CountryCode)
    ensures KeepFirst(s + [x]) == if x.dialCode in Codes(s) then KeepFirst(s) else KeepFirst(s) + [x]
  {
    var sx := s + [x];
    assert sx[..|sx| - 1] == s && sx[|sx| - 1] == x;
  }

  /** `KeepFirstSnoc` and `CodesSnoc` for the prefixes of one list. */
  lemma KeepFirstPrefix(items: seq<CountryCode>, i: nat)
    requires i < |items|
    ensures Codes(items[..i + 1]) == Codes(items[..i]) + {items[i].dialCode}
    ensures KeepFirst(items[..i + 1]) ==
      if items[i].dialCode in Codes(items[..i]) then KeepFirst(items[..i]) else KeepFirst(items[..i]) + [items[i]]
  {
    assert items[..i + 1] == items[..i] + [items[i]];
    KeepFirstSnoc(items[..i], items[i]);
    CodesSnoc(items[..i], items[i]);
  }

  /** `Object.values` of an object whose keys, in the order they were first written, are `keys`. */
  function ObjectValues(unique: map<string, CountryCode>, keys: seq<string>): (values: seq<CountryCode>)
    requires forall j :: 0 <= j < |keys| ==> keys[j] in unique
    ensures |values| == |keys|
    ensures forall j :: 0 <= j < |keys| ==> values[j] == unique[keys[j]]
  {
    seq(|keys|, j requires 0 <= j < |keys| => unique[keys[j]])
  }

  /** The object with key order `keys` holds exactly the records of `kept`, in order. */
  ghost predicate Holds(unique: map<string, CountryCode>, keys: seq<string>, kept: seq<CountryCode>)
  {
    |keys| == |kept| && forall j :: 0 <= j < |keys| ==> keys[j] in unique && unique[keys[j]] == kept[j]
  }

  /** Writing a new key appends its record to the values. */
  lemma HoldsPut(unique: map<string, CountryCode>, keys: seq<string>, kept: seq<CountryCode>, item: CountryCode)
    requires Holds(unique, keys, kept) && item.dialCode !in unique
    ensures Holds(unique[item.dialCode := item], keys + [item.dialCode], kept + [item])
  {
  }

  lemma HoldsValues(unique: map<string, CountryCode>, keys: seq<string>, kept: seq<CountryCode>)
    requires Holds(unique, keys, kept)
    ensures ObjectValues(unique, keys) == kept
  {
  }

  /**
    The de-duplication loop: an object keyed by dial code that takes each
    record whose dial code it does not hold yet, then `Object.values` of it, in
    the order the keys were first written.
  */
  method UniqueByDialCode(items: seq<CountryCode>) returns (values: seq<CountryCode>)
    ensures values == KeepFirst(items)
  {
    var unique: map<string, CountryCode> := map[];
    var keys: seq<string> := [];
    ghost var kept: seq<CountryCode> := [];
    var i := 0;
    while i < |items|
      invariant 0 <= i <= |items|
      invariant kept == KeepFirst(items[..i])
      invariant Holds(unique, keys, kept)
      invariant unique.Keys == Codes(items[..i])
    {
      var item := items[i];
      KeepFirstPrefix(items, i);
      if item.dialCode !in unique {
        HoldsPut(unique, keys, kept, item);
        unique := unique[item.dialCode := item];
        keys := keys + [item.dialCode];
        kept := kept + [item];
      }
      i := i + 1;
    }
    assert items[..|items|] == items;
    HoldsValues(unique, keys, kept);
    values := ObjectValues(unique, keys);
  }

  /** The transform inside `fetchCountries`, from the decoded JSON to the list it stores. */
  method ProcessCountries(json: seq<Country>) returns (data: seq<CountryCode>)
    ensures data == CountryList(json)
  {
    var parsedData := SortByDialCode(ParseCountries(json));
    data := UniqueByDialCode(parsedData);
  }

  /** How the fetch ended: a non-OK HTTP status, a thrown error with its message, or a decoded body. */
  datatype FetchOutcome = HttpNotOk | Failed(message: string) | Received(json: seq<Country>)

  const FetchFailedMessage: string := "Failed to fetch country data"

  /** The hook's three state variables. */
  class CountryCodesState {
    var data: seq<CountryCode>
    var isLoading: bool
    var error: Option<string>

    constructor()
      ensures data == [] && isLoading && error == None
    {
      data := [];
      isLoading := true;
      error := None;
    }

    /**
      The end of `fetchCountries`: a decoded body stores its dial-code list; a
      failure stores the error message and leaves the data as it was; loading
      ends in every case.
    */
    method FetchSettled(outcome: FetchOutcome)
      modifies this
      ensures !isLoading
      ensures outcome.Received? ==> data == CountryList(outcome.json) && error == old(error)
      ensures outcome.HttpNotOk? ==> data == old(data) && error == Some(FetchFailedMessage)
      ensures outcome.Failed? ==> data == old(data) && error == Some(outcome.message)
    {
      match outcome {
        case Received(json) =>
          var list := ProcessCountries(json);
          data := list;
        case HttpNotOk =>
          error := Some(FetchFailedMessage);
        case Failed(message) =>
          error := Some(message);
      }
      isLoading := false;
    }
  }
}
