/** The values a JSON decoder hands to the error module, and the Python
    built-ins the error module applies to them: `str()`, `in`, subscripting
    with a string key, `dict.get`, iteration, `str.join` and `int()`.
    Each built-in that can raise returns a Result whose Failure names the
    Python exception. */
module PyValues {
  import opened Wrappers

  /** A decoded JSON value as Python holds it. JNull is Python's None, so
      `d.get(k, None)` yields JNull both for a missing key and for a null
      value. An object keeps its members in document order; when a key is
      repeated the last binding wins, as with Python's json module. */
  datatype Json =
    | JNull
    | JBool(b: bool)
    | JInt(i: int)
    | JString(s: string)
    | JArray(items: seq<Json>)
    | JObject(members: seq<(string, Json)>)

  /** The exceptions the modelled code can raise besides the JSON decode error. */
  datatype Fault =
    | KeyError(key: string)
    | TypeError
    | AttributeError
    | ValueError

  // ---------------------------------------------------------------------
  // Strings
  // ---------------------------------------------------------------------

  predicate StartsWith(s: string, prefix: string) {
    |prefix| <= |s| && s[..|prefix|] == prefix
  }

  predicate EndsWith(s: string, suffix: string) {
    |suffix| <= |s| && s[|s| - |suffix|..] == suffix
  }

  /** `sep.join(parts)` */
  function Join(sep: string, parts: seq<string>): string {
    if |parts| == 0 then ""
    else if |parts| == 1 then parts[0]
    else parts[0] + sep + Join(sep, parts[1..])
  }

  /** Joining one more part appends the separator and that part. */
  lemma {:induction false} JoinSnoc(sep: string, parts: seq<string>, last: string)
    ensures Join(sep, parts + [last]) == if parts == [] then last else Join(sep, parts) + sep + last
  {
    if |parts| > 1 {
      assert (parts + [last])[1..] == parts[1..] + [last];
      JoinSnoc(sep, parts[1..], last);
    }
  }

  /** A joined list starts with its first part. */
  lemma JoinStartsWithFirst(sep: string, parts: seq<string>)
    requires |parts| > 0
    ensures StartsWith(Join(sep, parts), parts[0])
  {
    if |parts| > 1 {
      assert Join(sep, parts) == parts[0] + (sep + Join(sep, parts[1..]));
    }
  }

  /** A string starts with each of its prefixes. */
  lemma StartsWithConcat(prefix: string, rest: string)
    ensures StartsWith(prefix + rest, prefix)
  {
    assert (prefix + rest)[..|prefix|] == prefix;
  }

  /** A string that opens with `head + line`, where `line` opens with
      `prefix`, opens with `head + prefix`. */
  lemma PrefixOfPrefix(s: string, head: string, line: string, prefix: string)
    requires StartsWith(s, head + line) && StartsWith(line, prefix)
    ensures StartsWith(s, head + prefix)
  {
    assert s[..|head + prefix|] == (head + line)[..|head + prefix|];
    assert (head + line)[..|head + prefix|] == head + line[..|prefix|];
  }

  /** A joined list of two or more parts opens with its first two parts and
      the separator between them. */
  lemma JoinStartsWithFirstTwo(sep: string, parts: seq<string>)
    requires |parts| >= 2
    ensures StartsWith(Join(sep, parts), parts[0] + sep + parts[1])
  {
    JoinStartsWithFirst(sep, parts[1..]);
    var rest := Join(sep, parts[2..]);
    var tail := Join(sep, parts[1..]);
    assert tail[..|parts[1]|] == parts[1];
    assert Join(sep, parts) == parts[0] + sep + tail;
    assert (parts[0] + sep + tail)[..|parts[0] + sep + parts[1]|] == parts[0] + sep + tail[..|parts[1]|];
  }

  /** A joined list of two or more parts closes with the separator and its
      last part. */
  lemma JoinEndsWithLast(sep: string, parts: seq<string>)
    requires |parts| >= 2
    ensures EndsWith(Join(sep, parts), sep + parts[|parts| - 1])
  {
    var init := parts[..|parts| - 1];
    var last := parts[|parts| - 1];
    assert parts == init + [last];
    JoinSnoc(sep, init, last);
    var s := Join(sep, init) + sep + last;
    assert s[|s| - |sep + last|..] == sep + last;
  }

  /** `needle in hay` for two strings */
  predicate IsSubstring(needle: string, hay: string) {
    exists k | 0 <= k <= |hay| :: StartsWith(hay[k..], needle)
  }

  // ---------------------------------------------------------------------
  // Integers: `str(n)` and `int(text)`
  // ---------------------------------------------------------------------

  predicate IsDigit(c: char) {
    '0' <= c <= '9'
  }

  predicate AllDigits(s: string) {
    forall k :: 0 <= k < |s| ==> IsDigit(s[k])
  }

  function DigitChar(d: nat): (c: char)
    requires d < 10
    ensures IsDigit(c) && c as int - '0' as int == d
  {
    ('0' as int + d) as char
  }

  /** Decimal rendering of a natural number, most significant digit first. */
  function NatToString(n: nat): (r: string)
    ensures |r| > 0 && AllDigits(r)
  {
    if n < 10 then [DigitChar(n)] else NatToString(n / 10) + [DigitChar(n % 10)]
  }

  /** `str(n)` for a Python int */
  function IntToString(n: int): string {
    if n < 0 then "-" + NatToString(-n) else NatToString(n)
  }

  /** The number a string of decimal digits denotes. */
  function DigitsValue(s: string): nat
    requires AllDigits(s)
  {
    if s == [] then 0 else DigitsValue(s[..|s| - 1]) * 10 + (s[|s| - 1] as int - '0' as int)
  }

  /** `int(text)`: an optional sign followed by at least one decimal digit;
      anything else raises ValueError, given here as None. */
  function ParseInt(text: string): Option<int> {
    if |text| > 0 && (text[0] == '-' || text[0] == '+') then
      if |text| > 1 && AllDigits(text[1..]) then
        Some(if text[0] == '-' then 0 - DigitsValue(text[1..]) else DigitsValue(text[1..]) as int)
      else None
    else if |text| > 0 && AllDigits(text) then Some(DigitsValue(text))
    else None
  }

  lemma {:induction false} DigitsValueOfNatToString(n: nat)
    ensures DigitsValue(NatToString(n)) == n
  {
    if n >= 10 {
      var s := NatToString(n);
      assert s[..|s| - 1] == NatToString(n / 10);
      DigitsValueOfNatToString(n / 10);
    }
  }

  /** `int(str(n)) == n` */
  lemma ParseIntToString(n: int)
    ensures ParseInt(IntToString(n)) == Some(n)
  {
    if n < 0 {
      var digits := NatToString(-n);
      DigitsValueOfNatToString(-n);
      var text := "-" + digits;
      assert text[0] == '-' && text[1..] == digits;
      assert ParseInt(text) == Some(0 - DigitsValue(digits));
    } else {
      var digits := NatToString(n);
      DigitsValueOfNatToString(n);
      assert IsDigit(digits[0]);
      assert ParseInt(digits) == Some(DigitsValue(digits));
    }
  }


  // ---------------------------------------------------------------------
  // `str()` of a value
  // ---------------------------------------------------------------------

  /** `str(v)` as `"{0}".format(v)` renders it: a string is itself, every
      other value its Python representation. */
  function Str(v: Json): (r: string)
    ensures v.JString? ==> r == v.s
    ensures v.JNull? ==> r == "None"
  {
    if v.JString? then v.s else Repr(v)
  }

  /** `repr(v)`, with a string written between single quotes. */
  function Repr(v: Json): string {
    match v
    case JNull => "None"
    case JBool(b) => if b then "True" else "False"
    case JInt(n) => IntToString(n)
    case JString(s) => "'" + s + "'"
    case JArray(items) =>
      "[" + Join(", ", seq(|items|, k requires 0 <= k < |items| => Repr(items[k]))) + "]"
    case JObject(ms) =>
      "{" + Join(", ", seq(|ms|, k requires 0 <= k < |ms| => "'" + ms[k].0 + "': " + Repr(ms[k].1))) + "}"
  }

  // ---------------------------------------------------------------------
  // Dictionaries
  // ---------------------------------------------------------------------

  predicate HasKey(ms: seq<(string, Json)>, key: string) {
    exists k :: 0 <= k < |ms| && ms[k].0 == key
  }

  /** The value bound to `key`; the last binding wins. */
  function Lookup(ms: seq<(string, Json)>, key: string): Option<Json> {
    if ms == [] then None
    else if ms[|ms| - 1].0 == key then Some(ms[|ms| - 1].1)
    else Lookup(ms[..|ms| - 1], key)
  }

  lemma {:induction false} LookupFindsKey(ms: seq<(string, Json)>, key: string)
    ensures Lookup(ms, key).Some? <==> HasKey(ms, key)
  {
    if ms != [] {
      var init := ms[..|ms| - 1];
      LookupFindsKey(init, key);
      if HasKey(ms, key) && ms[|ms| - 1].0 != key {
        var k :| 0 <= k < |ms| && ms[k].0 == key;
        assert init[k].0 == key;
      }
      if HasKey(init, key) {
        var k :| 0 <= k < |init| && init[k].0 == key;
        assert ms[k].0 == key;
      }
    }
  }

  /** The keys of a dictionary, each once, in the order of first appearance. */
  function DictKeys(ms: seq<(string, Json)>): seq<string> {
    if ms == [] then []
    else
      var init := DictKeys(ms[..|ms| - 1]);
      if ms[|ms| - 1].0 in init then init else init + [ms[|ms| - 1].0]
  }

  /** `d.get(key, None)` on a dictionary's members. */
  function GetOrNone(ms: seq<(string, Json)>, key: string): Json {
    match Lookup(ms, key)
    case Some(v) => v
    case None => JNull
  }

  /** `obj.get(key, None)`: only a dictionary has `get`. */
  function PyGet(obj: Json, key: string): (r: Result<Json, Fault>)
    ensures r.Success? <==> obj.JObject?
    ensures r.Failure? ==> r.error == AttributeError
    ensures r.Success? && HasKey(obj.members, key) ==> Some(r.value) == Lookup(obj.members, key)
    ensures r.Success? && !HasKey(obj.members, key) ==> r.value == JNull
  {
    LookupFindsKey(if obj.JObject? then obj.members else [], key);
    match obj
    case JObject(ms) => Success(GetOrNone(ms, key))
    case _ => Failure(AttributeError)
  }

  /** `container[key]` with a string key: a dictionary raises KeyError for a
      missing key, every other value raises TypeError. */
  function Subscript(container: Json, key: string): (r: Result<Json, Fault>)
    ensures r.Success? <==> container.JObject? && HasKey(container.members, key)
    ensures r.Failure? ==> r.error == if container.JObject? then KeyError(key) else TypeError
    ensures r.Success? ==> Some(r.value) == Lookup(container.members, key)
  {
    match container
    case JObject(ms) =>
      LookupFindsKey(ms, key);
      (match Lookup(ms, key)
       case Some(v) => Success(v)
       case None => Failure(KeyError(key)))
    case _ => Failure(TypeError)
  }

  /** `key in container`: key membership for a dictionary, element equality
      for a list, substring for a string; other values raise TypeError. */
  function Contains(container: Json, key: string): (r: Result<bool, Fault>)
    ensures r.Success? <==> container.JObject? || container.JArray? || container.JString?
    ensures r.Failure? ==> r.error == TypeError
    ensures container.JObject? ==> r == Success(HasKey(container.members, key))
    ensures container.JString? ==> r == Success(IsSubstring(key, container.s))
  {
    match container
    case JObject(ms) => Success(HasKey(ms, key))
    case JArray(items) => Success(JString(key) in items)
    case JString(s) => Success(IsSubstring(key, s))
    case _ => Failure(TypeError)
  }

  /** `for x in v`: a list yields its items, a string its characters, a
      dictionary its keys; other values raise TypeError. */
  function Iterate(v: Json): (r: Result<seq<Json>, Fault>)
    ensures v.JArray? ==> r == Success(v.items)
    ensures (v.JNull? || v.JBool? || v.JInt?) ==> r == Failure(TypeError)
  {
    match v
    case JArray(items) => Success(items)
    case JString(s) => Success(seq(|s|, k requires 0 <= k < |s| => JString([s[k]])))
    case JObject(ms) =>
      var keys := DictKeys(ms);
      Success(seq(|keys|, k requires 0 <= k < |keys| => JString(keys[k])))
    case _ => Failure(TypeError)
  }

  /** The texts of a list of strings, or None when one item is not a string. */
  function AsStrings(items: seq<Json>): (r: Option<seq<string>>)
    ensures r.Some? <==> forall k :: 0 <= k < |items| ==> items[k].JString?
    ensures r.Some? ==> |r.value| == |items| && forall k :: 0 <= k < |items| ==> r.value[k] == items[k].s
  {
    if items == [] then Some([])
    else
      var init := AsStrings(items[..|items| - 1]);
      var last := items[|items| - 1];
      if init.Some? && last.JString? then Some(init.value + [last.s]) else None
  }

  /** `sep.join(items)`: every item must be a string, else TypeError. */
  function JoinStrings(sep: string, items: seq<Json>): (r: Result<string, Fault>)
    ensures r.Success? <==> forall k :: 0 <= k < |items| ==> items[k].JString?
    ensures r.Failure? ==> r.error == TypeError
    ensures r.Success? ==> r.value == Join(sep, seq(|items|, k requires 0 <= k < |items| && items[k].JString? => items[k].s))
  {
    match AsStrings(items)
    case Some(texts) =>
      assert texts == seq(|items|, k requires 0 <= k < |items| && items[k].JString? => items[k].s);
      Success(Join(sep, texts))
    case None => Failure(TypeError)
  }

  /** `[f(x) for x in xs]`: the first exception in list order escapes. */
  function MapResult<A, B>(f: A -> Result<B, Fault>, xs: seq<A>): Result<seq<B>, Fault> {
    if xs == [] then Success([])
    else
      var init :- MapResult(f, xs[..|xs| - 1]);
      var last :- f(xs[|xs| - 1]);
      Success(init + [last])
  }

  /** A comprehension succeeds exactly when every call does, and then holds
      one result per item, in order. */
  lemma {:induction false} MapResultSucceeds<A, B>(f: A -> Result<B, Fault>, xs: seq<A>)
    ensures MapResult(f, xs).Success? <==> forall k :: 0 <= k < |xs| ==> f(xs[k]).Success?
    ensures MapResult(f, xs).Success? ==>
      |MapResult(f, xs).value| == |xs| &&
      forall k :: 0 <= k < |xs| ==> MapResult(f, xs).value[k] == f(xs[k]).value
  {
    if xs != [] {
      var init := xs[..|xs| - 1];
      MapResultSucceeds(f, init);
      assert forall k :: 0 <= k < |init| ==> init[k] == xs[k];
    }
  }

  /** The exception a comprehension raises is one that a call on an item raised. */
  lemma {:induction false} MapResultFault<A, B>(f: A -> Result<B, Fault>, xs: seq<A>)
    ensures MapResult(f, xs).Failure? ==>
      exists k :: 0 <= k < |xs| && f(xs[k]) == Failure(MapResult(f, xs).error)
  {
    if xs != [] {
      var init := xs[..|xs| - 1];
      MapResultFault(f, init);
      if MapResult(f, init).Failure? {
        var k :| 0 <= k < |init| && f(init[k]) == Failure(MapResult(f, init).error);
        assert xs[k] == init[k];
      }
    }
  }

  /** Once a prefix of the items raises, the whole comprehension raises the same. */
  lemma {:induction false} MapResultPrefixFault<A, B>(f: A -> Result<B, Fault>, xs: seq<A>, n: nat)
    requires n <= |xs|
    requires MapResult(f, xs[..n]).Failure?
    ensures MapResult(f, xs) == MapResult(f, xs[..n])
    decreases |xs| - n
  {
    if n < |xs| {
      assert xs[..n + 1][..n] == xs[..n];
      MapResultPrefixFault(f, xs, n + 1);
    } else {
      assert xs[..n] == xs;
    }
  }
}
