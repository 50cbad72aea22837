/**
 Header names as the client reads them back: `key.toLowerCase()` on each name
 of a response, folded into a dictionary in iteration order.
 */
module HeaderNames {

  predicate IsUpper(c: char) {
    'A' <= c <= 'Z'
  }

  /** A name with no upper-case letter in it. */
  predicate IsLowerCase(s: string) {
    forall i :: 0 <= i < |s| ==> !IsUpper(s[i])
  }

  /** Lower-cases one character (ASCII letters only: header names are tokens). */
  function LowerChar(c: char): (r: char)
    ensures !IsUpper(r)
    ensures r == c <==> !IsUpper(c)
    ensures IsUpper(c) ==> r as int - c as int == 'a' as int - 'A' as int
  {
    if IsUpper(c) then (c as int - 'A' as int + 'a' as int) as char else c
  }

  /** `name.toLowerCase()` for a header name. */
  function Lower(s: string): (r: string)
    ensures |r| == |s|
    ensures forall i :: 0 <= i < |s| ==> r[i] == LowerChar(s[i])
    ensures IsLowerCase(r)
  {
    seq(|s|, i requires 0 <= i < |s| => LowerChar(s[i]))
  }

  /** Lower-casing an already lower-cased name changes nothing. */
  lemma LowerIdempotent(s: string)
    ensures Lower(Lower(s)) == Lower(s)
  {
  }

  /** A name is its own lower-cased form exactly when it has no upper-case letter. */
  lemma LowerFixesExactlyLowerCase(s: string)
    ensures Lower(s) == s <==> IsLowerCase(s)
  {
  }

  /**
   The one name an assignment to a fresh `{}` does not store: `__proto__` is an
   inherited accessor there, and its setter ignores a string value.
   */
  const ProtoKey := "__proto__"

  /** The name (lower-cased) under which the dictionary stores a pair, if it stores it at all. */
  predicate StoredAs(pair: (string, string), k: string) {
    Lower(pair.0) == k && k != ProtoKey
  }

  /**
   The dictionary built by `headers[key.toLowerCase()] = value` for each
   (key, value) pair in iteration order: a later pair overwrites an earlier one
   whose name is equal up to case, and a pair named `__proto__` is not stored.
   */
  function LowerCaseHeaders(pairs: seq<(string, string)>): (m: map<string, string>)
    ensures forall k :: k in m ==> IsLowerCase(k) && k != ProtoKey
    ensures |pairs| == 0 ==> m == map[]
  {
    if |pairs| == 0 then map[]
    else
      var front := LowerCaseHeaders(pairs[..|pairs| - 1]);
      var (name, value) := pairs[|pairs| - 1];
      if Lower(name) == ProtoKey then front else front[Lower(name) := value]
  }

  /** A name is a key of the dictionary exactly when some pair is stored under it. */
  lemma {:induction false} LowerCaseHeadersKeys(pairs: seq<(string, string)>, k: string)
    ensures k in LowerCaseHeaders(pairs) <==> exists i :: 0 <= i < |pairs| && StoredAs(pairs[i], k)
  {
    if |pairs| > 0 {
      var front := pairs[..|pairs| - 1];
      LowerCaseHeadersKeys(front, k);
      if k in LowerCaseHeaders(pairs) && !StoredAs(pairs[|pairs| - 1], k) {
        var i :| 0 <= i < |front| && StoredAs(front[i], k);
        assert pairs[i] == front[i];
      }
      if exists i :: 0 <= i < |pairs| && StoredAs(pairs[i], k) {
        var i :| 0 <= i < |pairs| && StoredAs(pairs[i], k);
        if i < |front| {
          assert front[i] == pairs[i];
        }
      }
    }
  }

  /** Among pairs whose names are equal up to case, the value of the last one wins. */
  lemma {:induction false} LowerCaseHeadersLastWins(pairs: seq<(string, string)>, i: nat)
    requires i < |pairs| && Lower(pairs[i].0) != ProtoKey
    requires forall j :: i < j < |pairs| ==> Lower(pairs[j].0) != Lower(pairs[i].0)
    ensures Lower(pairs[i].0) in LowerCaseHeaders(pairs)
    ensures LowerCaseHeaders(pairs)[Lower(pairs[i].0)] == pairs[i].1
  {
    if i < |pairs| - 1 {
      var front := pairs[..|pairs| - 1];
      assert front[i] == pairs[i];
      forall j | i < j < |front|
        ensures Lower(front[j].0) != Lower(front[i].0)
      {
        assert front[j] == pairs[j];
      }
      LowerCaseHeadersLastWins(front, i);
    }
  }
}
