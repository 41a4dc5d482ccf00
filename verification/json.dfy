/** The documents that `response.json()` hands to the load-test tasks, and the
    few pieces of Python semantics the tasks apply to them: truthiness,
    `dict.get`, and the `in` operator with its TypeError on scalars. */
module Json {
  import opened Wrappers

  /** A decoded JSON document as Python's json module represents it
      (dict, list, str, int/float, bool, None). */
  datatype Value =
    | Obj(fields: map<string, Value>)
    | Arr(items: seq<Value>)
    | Str(text: string)
    | Num(number: real)
    | Bool(flag: bool)
    | Null

  /** The result of `response.json()`: a document, or the exception it raises
      on a body that is not JSON. */
  datatype Body = Parsed(doc: Value) | ParseError

  /** Python truthiness: empty containers, the empty string, zero, False and
      None are falsy. */
  predicate Truthy(v: Value) {
    match v
    case Obj(f) => |f| != 0
    case Arr(xs) => |xs| != 0
    case Str(s) => |s| != 0
    case Num(n) => n != 0.0
    case Bool(b) => b
    case Null => false
  }

  /** `d.get(key)`: the bound value, or None when the key is absent. */
  function Get(fields: map<string, Value>, key: string): Value {
    if key in fields then fields[key] else Null
  }

  /** Python's `pat in s` on two strings: `pat` occurs somewhere in `s`. */
  predicate HasSubstring(s: string, pat: string)
    decreases |s|
  {
    pat <= s || (|s| != 0 && HasSubstring(s[1..], pat))
  }

  /** `pat` occurs in `s` starting at position `i`. */
  predicate OccursAt(s: string, pat: string, i: int) {
    0 <= i && i + |pat| <= |s| && s[i..i + |pat|] == pat
  }

  /** `HasSubstring` agrees with the positional reading of "occurs in". */
  lemma {:induction false} HasSubstringAt(s: string, pat: string)
    ensures HasSubstring(s, pat) <==> exists i :: OccursAt(s, pat, i)
    decreases |s|
  {
    if pat <= s {
      assert OccursAt(s, pat, 0);
    } else if |s| == 0 {
    } else {
      HasSubstringAt(s[1..], pat);
      if i :| OccursAt(s, pat, i) {
        assert s[1..][i - 1..i - 1 + |pat|] == s[i..i + |pat|];
        assert OccursAt(s[1..], pat, i - 1);
      }
      if HasSubstring(s[1..], pat) {
        var j :| OccursAt(s[1..], pat, j);
        assert s[1..][j..j + |pat|] == s[j + 1..j + 1 + |pat|];
        assert OccursAt(s, pat, j + 1);
      }
    }
  }

  /** Python's `key in v` for a string `key`: key membership on a dict,
      element equality on a list, substring on a str; None stands for the
      TypeError that `in` raises on a number, a bool or None. */
  function Contains(v: Value, key: string): (r: Option<bool>)
    ensures r.None? <==> v.Num? || v.Bool? || v.Null?
    ensures v.Obj? ==> r == Some(key in v.fields)
    ensures v.Arr? ==> r == Some(Str(key) in v.items)
    ensures v.Str? ==> (r == Some(true) <==> exists i :: OccursAt(v.text, key, i))
  {
    match v
    case Obj(f) => Some(key in f)
    case Arr(xs) => Some(Str(key) in xs)
    case Str(s) =>
      HasSubstringAt(s, key);
      Some(HasSubstring(s, key))
    case _ => None
  }
}
