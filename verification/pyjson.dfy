/** A decoded JSON value as the script sees it after `response.json()`, and the handful of
    Python operations the response check applies to it. Each operation either yields a
    value or raises, exactly where Python raises on the corresponding built-in type. */
module PyJson {
  import Text

  /** `dict` (keys are always strings in JSON), `list`, `str`, and every other JSON value
      (numbers, booleans, `null`), which none of the checked operations treats specially. */
  datatype Json = Obj(fields: map<string, Json>) | Arr(items: seq<Json>) | Str(s: string) | Other

  /** The outcome of a Python expression: a value, or an exception (`TypeError`, `KeyError`,
      `IndexError`, `AttributeError`; the handler that catches them does not tell them apart). */
  datatype Py<+T> = Ok(value: T) | Raised {

    predicate IsFailure() {
      Raised?
    }

    function PropagateFailure<U>(): Py<U>
      requires Raised?
    {
      Raised
    }

    function Extract(): T
      requires Ok?
    {
      value
    }
  }

  /** `needle in hay` on strings: substring containment. */
  predicate Substring(needle: string, hay: string)
    decreases |hay|
  {
    needle <= hay || (|hay| > 0 && Substring(needle, hay[1..]))
  }

  /** `needle` sits at position `i` of `hay`. */
  predicate OccursAt(needle: string, hay: string, i: int) {
    0 <= i && i + |needle| <= |hay| && hay[i..i + |needle|] == needle
  }

  /** `needle in hay` holds exactly when `needle` occurs at some position of `hay`. */
  lemma SubstringOccurs(needle: string, hay: string)
    ensures Substring(needle, hay) <==> exists i :: OccursAt(needle, hay, i)
  {
    if Substring(needle, hay) {
      var i := FindOccurrence(needle, hay);
    }
    if exists i :: OccursAt(needle, hay, i) {
      var i :| OccursAt(needle, hay, i);
      OccurrenceIsSubstring(needle, hay, i);
    }
  }

  /** A position where a contained `needle` occurs. */
  lemma {:induction false} FindOccurrence(needle: string, hay: string) returns (i: int)
    requires Substring(needle, hay)
    ensures OccursAt(needle, hay, i)
    decreases |hay|
  {
    if needle <= hay {
      i := 0;
    } else {
      var k := FindOccurrence(needle, hay[1..]);
      assert hay[1..][k..k + |needle|] == hay[k + 1..k + 1 + |needle|];
      i := k + 1;
    }
  }

  /** An occurrence of `needle` at any position makes it contained. */
  lemma {:induction false} OccurrenceIsSubstring(needle: string, hay: string, i: int)
    requires OccursAt(needle, hay, i)
    ensures Substring(needle, hay)
    decreases i
  {
    if i > 0 {
      assert hay[1..][i - 1..i - 1 + |needle|] == hay[i..i + |needle|];
      OccurrenceIsSubstring(needle, hay[1..], i - 1);
    } else {
      assert needle <= hay;
    }
  }

  /** `key in x`: key membership for a dict, element equality for a list, substring for a
      str; numbers, booleans and `None` are not containers. */
  function In(key: string, x: Json): Py<bool> {
    match x
    case Obj(fields) => Ok(key in fields)
    case Arr(items) => Ok(Str(key) in items)
    case Str(s) => Ok(Substring(key, s))
    case Other => Raised
  }

  /** `len(x)`. */
  function Len(x: Json): Py<nat> {
    match x
    case Obj(fields) => Ok(|fields|)
    case Arr(items) => Ok(|items|)
    case Str(s) => Ok(|s|)
    case Other => Raised
  }

  /** `x[0]`: the head of a list, the first character of a str; a dict has no key `0`. */
  function First(x: Json): Py<Json> {
    match x
    case Arr(items) => if |items| > 0 then Ok(items[0]) else Raised
    case Str(s) => if |s| > 0 then Ok(Str([s[0]])) else Raised
    case _ => Raised
  }

  /** `x[key]` with a string key: only a dict holding that key answers. */
  function Index(x: Json, key: string): Py<Json> {
    if x.Obj? && key in x.fields then Ok(x.fields[key]) else Raised
  }

  /** `x.get(key, default)`: only a dict has a `get` method. */
  function Get(x: Json, key: string, default: Json): Py<Json> {
    match x
    case Obj(fields) => Ok(if key in fields then fields[key] else default)
    case _ => Raised
  }

  /** `x.strip()`: only a str has a `strip` method. */
  function StripStr(x: Json): Py<string> {
    match x
    case Str(s) => Ok(Text.Strip(s))
    case _ => Raised
  }
}
