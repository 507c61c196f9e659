/**
 * Decoded JSON values as the Python code sees them after json.loads, and the
 * handful of Python operations the code applies to them: truthiness, d[key],
 * d.get(key, default), the `in` operator, iteration, int(x) and str(x).
 * Objects are the decoded dict, so their keys are distinct; lookups take the
 * first field with the key.
 */
module PyJson {
  import opened Wrappers
  import Text

  datatype Json =
    | JNull
    | JBool(b: bool)
    | JInt(i: int)
    | JStr(s: string)
    | JArr(items: seq<Json>)
    | JObj(fields: seq<(string, Json)>)

  /** Python truthiness: None, False, 0 and empty containers are false. */
  predicate Truthy(j: Json)
  {
    match j
    case JNull => false
    case JBool(b) => b
    case JInt(i) => i != 0
    case JStr(s) => s != []
    case JArr(xs) => xs != []
    case JObj(fs) => fs != []
  }

  /** The position of the field named key, or -1 when there is none. */
  function KeyIndex(fields: seq<(string, Json)>, key: string): (k: int)
    ensures -1 <= k < |fields|
    ensures k >= 0 ==> fields[k].0 == key
  {
    if |fields| == 0 then -1
    else if fields[0].0 == key then 0
    else
      var k := KeyIndex(fields[1..], key);
      if k < 0 then -1 else k + 1
  }

  /** The lookup finds the first field with the key, and -1 exactly when no field has it. */
  lemma {:induction false} KeyIndexFirst(fields: seq<(string, Json)>, key: string)
    ensures var k := KeyIndex(fields, key);
      && (k >= 0 ==> forall j :: 0 <= j < k ==> fields[j].0 != key)
      && (k < 0 <==> forall j :: 0 <= j < |fields| ==> fields[j].0 != key)
  {
    if |fields| > 0 && fields[0].0 != key {
      KeyIndexFirst(fields[1..], key);
      assert forall j :: 1 <= j < |fields| ==> fields[j] == fields[1..][j - 1];
    }
  }

  /** `key in d` for a dict d. */
  predicate HasKey(j: Json, key: string)
  {
    j.JObj? && KeyIndex(j.fields, key) >= 0
  }

  /** The value stored under a key the dict has. */
  function Field(j: Json, key: string): (v: Json)
    requires HasKey(j, key)
    ensures exists k :: 0 <= k < |j.fields| && j.fields[k] == (key, v)
  {
    j.fields[KeyIndex(j.fields, key)].1
  }

  /** `x[key]` with a string key: a dict lookup, KeyError when absent; any other value refuses a string index. */
  function Index(j: Json, key: string): (r: Result<Json>)
    ensures r.Ok? <==> HasKey(j, key)
    ensures r.Ok? ==> r.value == Field(j, key)
    ensures r.Raised? && j.JObj? ==> r.error == KeyError
    ensures !j.JObj? ==> r == Raised(TypeError)
  {
    match j
    case JObj(fs) =>
      var k := KeyIndex(fs, key);
      if k < 0 then Raised(KeyError) else Ok(fs[k].1)
    case _ => Raised(TypeError)
  }

  /** The first field named key is the one a lookup finds. */
  lemma FieldAt(fields: seq<(string, Json)>, i: nat, key: string)
    requires i < |fields| && fields[i].0 == key
    requires forall j :: 0 <= j < i ==> fields[j].0 != key
    ensures KeyIndex(fields, key) == i
    ensures HasKey(JObj(fields), key) && Field(JObj(fields), key) == fields[i].1
  {
    KeyIndexFirst(fields, key);
  }

  /** A key no field carries is absent. */
  lemma NoField(fields: seq<(string, Json)>, key: string)
    requires forall j :: 0 <= j < |fields| ==> fields[j].0 != key
    ensures KeyIndex(fields, key) == -1 && !HasKey(JObj(fields), key)
  {
    KeyIndexFirst(fields, key);
  }

  /** `d.get(key, default)` on a dict given by its fields. */
  function DictGet(fields: seq<(string, Json)>, key: string, default: Json): (v: Json)
    ensures HasKey(JObj(fields), key) ==> v == Field(JObj(fields), key)
    ensures !HasKey(JObj(fields), key) ==> v == default
  {
    var k := KeyIndex(fields, key);
    if k < 0 then default else fields[k].1
  }

  /** `x.get(key, default)`: the stored value or the default for a dict; other values have no get method. */
  function Get(j: Json, key: string, default: Json): (r: Result<Json>)
    ensures r.Ok? <==> j.JObj?
    ensures r.Ok? ==> r.value == if HasKey(j, key) then Field(j, key) else default
    ensures !j.JObj? ==> r == Raised(AttributeError)
  {
    match j
    case JObj(fs) => Ok(DictGet(fs, key, default))
    case _ => Raised(AttributeError)
  }

  /** `item in container` for a string item: substring, list membership or dict key; other containers raise TypeError. */
  function In(item: string, container: Json): (r: Result<bool>)
    ensures r.Ok? <==> (container.JStr? || container.JArr? || container.JObj?)
    ensures container.JStr? ==> r == Ok(Text.Contains(container.s, item))
    ensures container.JArr? ==> r == Ok(JStr(item) in container.items)
    ensures container.JObj? ==> r == Ok(HasKey(container, item))
  {
    match container
    case JStr(s) => Ok(Text.Contains(s, item))
    case JArr(xs) => Ok(JStr(item) in xs)
    case JObj(_) => Ok(HasKey(container, item))
    case _ => Raised(TypeError)
  }

  /** The keys of a dict, as the values a for loop over it yields. */
  function Keys(fs: seq<(string, Json)>): (ks: seq<Json>)
    ensures |ks| == |fs|
    ensures forall i :: 0 <= i < |fs| ==> ks[i] == JStr(fs[i].0)
  {
    seq(|fs|, i requires 0 <= i < |fs| => JStr(fs[i].0))
  }

  /** The one-character strings a for loop over a string yields. */
  function Chars(s: string): (cs: seq<Json>)
    ensures |cs| == |s|
    ensures forall i :: 0 <= i < |s| ==> cs[i] == JStr([s[i]])
  {
    seq(|s|, i requires 0 <= i < |s| => JStr([s[i]]))
  }

  /** The values `for x in j` visits: list items, dict keys, string characters; None, numbers and booleans are not iterable. */
  function Iterate(j: Json): (r: Result<seq<Json>>)
    ensures r.Ok? <==> (j.JArr? || j.JObj? || j.JStr?)
    ensures j.JArr? ==> r == Ok(j.items)
    ensures r.Raised? ==> r.error == TypeError
  {
    match j
    case JArr(xs) => Ok(xs)
    case JObj(fs) => Ok(Keys(fs))
    case JStr(s) => Ok(Chars(s))
    case _ => Raised(TypeError)
  }

  predicate AllDigits(s: string)
  {
    forall i :: 0 <= i < |s| ==> Text.IsDigit(s[i])
  }

  /** An integer literal as int() reads it once surrounding whitespace is gone: an optional sign and at least one digit. */
  function ParseInteger(t: string): (r: Option<int>)
    ensures r.Some? <==> (|t| >= 1 && AllDigits(t)) || (|t| >= 2 && (t[0] == '+' || t[0] == '-') && AllDigits(t[1..]))
  {
    if |t| >= 1 && (t[0] == '+' || t[0] == '-') then
      if |t| >= 2 && AllDigits(t[1..]) then
        var v: int := Text.DigitsValue(t[1..]);
        Some(if t[0] == '-' then -v else v)
      else None
    else if |t| >= 1 && AllDigits(t) then Some(Text.DigitsValue(t))
    else None
  }

  /** int(x): ints are kept, booleans become 0 or 1, strings are parsed, everything else raises. */
  function ToInt(j: Json): (r: Result<int>)
    ensures j.JInt? ==> r == Ok(j.i)
    ensures j.JBool? ==> r == Ok(if j.b then 1 else 0)
    ensures j.JStr? ==> (r.Ok? <==> ParseInteger(Text.Strip(j.s)).Some?)
    ensures j.JStr? && r.Raised? ==> r.error == ValueError
    ensures (j.JNull? || j.JArr? || j.JObj?) ==> r == Raised(TypeError)
  {
    match j
    case JInt(i) => Ok(i)
    case JBool(b) => Ok(if b then 1 else 0)
    case JStr(s) =>
      (match ParseInteger(Text.Strip(s))
       case Some(n) => Ok(n)
       case None => Raised(ValueError))
    case _ => Raised(TypeError)
  }

  /** int() reads back the decimal text str() writes for every integer. */
  lemma IntRoundTrip(n: int)
    ensures ToInt(JStr(Text.IntToString(n))) == Ok(n)
  {
    var t := Text.IntToString(n);
    ParseIntegerOfText(n);
    assert Text.Trimmed(t);
    Text.StripKeepsTrimmed(t);
  }

  /** The sign and digits str() writes parse back to the number. */
  lemma ParseIntegerOfText(n: int)
    ensures ParseInteger(Text.IntToString(n)) == Some(n)
  {
    var t := Text.IntToString(n);
    var m: nat := if n < 0 then -n else n;
    var ds := Text.NatToString(m);
    Text.NatToStringValue(m);
    if n < 0 {
      assert t == "-" + ds;
      assert t[1..] == ds;
    } else {
      assert t == ds;
    }
  }

  /** str() of a string inside a container: quoted, without escaping. */
  function QuoteString(s: string): string
  {
    "'" + s + "'"
  }

  /** str(x) for a decoded value, with repr() inside containers. */
  function Str(j: Json): (r: string)
    ensures j.JStr? ==> r == j.s
  {
    match j
    case JStr(s) => s
    case _ => Repr(j)
  }

  /** repr(x) for a decoded value. */
  function Repr(j: Json): (r: string)
    ensures j.JStr? ==> r == QuoteString(j.s)
  {
    match j
    case JNull => "None"
    case JBool(b) => if b then "True" else "False"
    case JInt(i) => Text.IntToString(i)
    case JStr(s) => QuoteString(s)
    case JArr(xs) =>
      "[" + Text.Join(seq(|xs|, k requires 0 <= k < |xs| => Repr(xs[k])), ", ") + "]"
    case JObj(fs) =>
      "{" + Text.Join(seq(|fs|, k requires 0 <= k < |fs| => QuoteString(fs[k].0) + ": " + Repr(fs[k].1)), ", ") + "}"
  }

  /** Values usable as set members and dict keys: not lists, not dicts. */
  predicate Hashable(j: Json)
  {
    !j.JArr? && !j.JObj?
  }

  /** The set member a hashable value stands for: True and 1 (False and 0) are the same member. */
  function PyKey(j: Json): (k: Json)
    ensures !k.JBool?
    ensures Hashable(j) ==> Hashable(k)
    ensures !j.JBool? ==> k == j
  {
    match j
    case JBool(b) => JInt(if b then 1 else 0)
    case _ => j
  }
}
