/** The list of monitored pairs and the two dashboard edits on it (bot.py,
    add_pair and remove_pair): the submitted form field is normalised with
    strip() and upper(), an add appends, a remove deletes the first equal
    entry. */
module PairRegistry {
  import opened Wrappers

  /** Python's str.isspace for one character: the ASCII whitespace and
      separator controls, NEL, NO-BREAK SPACE and the Unicode space and
      line/paragraph separators. */
  predicate IsSpace(c: char)
  {
    var n := c as int;
    || 0x09 <= n <= 0x0D
    || 0x1C <= n <= 0x20
    || n == 0x85 || n == 0xA0 || n == 0x1680
    || 0x2000 <= n <= 0x200A
    || n == 0x2028 || n == 0x2029 || n == 0x202F || n == 0x205F || n == 0x3000
  }

  predicate AllSpace(s: string)
  {
    forall i :: 0 <= i < |s| ==> IsSpace(s[i])
  }

  /** The number of whitespace characters `s` starts with. */
  function LeadingSpaces(s: string): (n: nat)
    ensures n <= |s|
    ensures forall k :: 0 <= k < n ==> IsSpace(s[k])
    ensures n < |s| ==> !IsSpace(s[n])
  {
    if s != [] && IsSpace(s[0]) then 1 + LeadingSpaces(s[1..]) else 0
  }

  /** The end of `s[lo..hi]` once its trailing whitespace is dropped. */
  function TrimmedEnd(s: string, lo: nat, hi: nat): (j: nat)
    requires lo <= hi <= |s|
    ensures lo <= j <= hi
    ensures forall k :: j <= k < hi ==> IsSpace(s[k])
    ensures j > lo ==> !IsSpace(s[j - 1])
    decreases hi
  {
    if hi > lo && IsSpace(s[hi - 1]) then TrimmedEnd(s, lo, hi - 1) else hi
  }

  /** Python's str.strip(): `s` without its leading and trailing whitespace. */
  function Strip(s: string): (r: string)
    ensures r != [] ==> !IsSpace(r[0]) && !IsSpace(r[|r| - 1])
    ensures r == [] <==> AllSpace(s)
  {
    var i := LeadingSpaces(s);
    var j := TrimmedEnd(s, i, |s|);
    assert i < j ==> s[i..j][0] == s[i] && s[i..j][j - i - 1] == s[j - 1];
    assert i == j ==> i == |s|;
    s[i..j]
  }

  /** What strip() removes is whitespace, and what it keeps is one contiguous
      slice of `s`. */
  lemma StripIsSlice(s: string)
    ensures exists i :: 0 <= i <= |s| - |Strip(s)| && Strip(s) == s[i..i + |Strip(s)|]
                        && AllSpace(s[..i]) && AllSpace(s[i + |Strip(s)|..])
  {
    var i := LeadingSpaces(s);
    var j := TrimmedEnd(s, i, |s|);
    assert Strip(s) == s[i..j];
    assert AllSpace(s[..i]) && AllSpace(s[j..]);
  }

  /** Python's str.upper() on one character, for the ASCII letters. */
  function UpperChar(c: char): (u: char)
    ensures IsSpace(u) == IsSpace(c)
    ensures !('a' <= u <= 'z')
    ensures !('a' <= c <= 'z') ==> u == c
    ensures 'a' <= c <= 'z' ==> 'A' <= u <= 'Z' && u as int - 'A' as int == c as int - 'a' as int
  {
    if 'a' <= c <= 'z' then (c as int - 'a' as int + 'A' as int) as char else c
  }

  /** Python's str.upper(), character by character. */
  function Upper(s: string): (r: string)
    ensures |r| == |s|
    ensures forall i :: 0 <= i < |s| ==> r[i] == UpperChar(s[i])
  {
    if s == [] then [] else [UpperChar(s[0])] + Upper(s[1..])
  }

  /** The pair a form submission names: the `pair` field, "" when absent,
      stripped and upper-cased. */
  function FormPair(field: Option<string>): (pair: string)
    ensures field.None? ==> pair == []
    ensures forall i :: 0 <= i < |pair| ==> !('a' <= pair[i] <= 'z')
    ensures pair != [] ==> !IsSpace(pair[0]) && !IsSpace(pair[|pair| - 1])
  {
    match field
    case Some(s) => Upper(Strip(s))
    case None => ""
  }

  /** A submission is rejected exactly when its field is missing or blank. */
  lemma FormPairEmpty(field: Option<string>)
    ensures FormPair(field) == [] <==> field.None? || AllSpace(field.value)
  {
  }

  /** A string that neither starts nor ends with whitespace strips to itself. */
  lemma StripTrimmed(s: string)
    requires s != [] ==> !IsSpace(s[0]) && !IsSpace(s[|s| - 1])
    ensures Strip(s) == s
  {
  }

  /** Normalising a pair a second time changes nothing: the names stored by
      add_pair are the names remove_pair looks for. */
  lemma FormPairIdempotent(field: Option<string>)
    ensures FormPair(Some(FormPair(field))) == FormPair(field)
  {
    StripTrimmed(FormPair(field));
    UpperFixed(FormPair(field));
  }

  /** Upper-casing a string with no lower-case ASCII letter changes nothing. */
  lemma UpperFixed(s: string)
    requires forall i :: 0 <= i < |s| ==> !('a' <= s[i] <= 'z')
    ensures Upper(s) == s
  {
    var u := Upper(s);
    forall i | 0 <= i < |s| ensures u[i] == s[i] {
      assert u[i] == UpperChar(s[i]);
    }
  }

  /** The position of the first entry equal to `x`. */
  function FirstIndex<T(==)>(s: seq<T>, x: T): (k: nat)
    requires x in s
    ensures k < |s| && s[k] == x && x !in s[..k]
  {
    if s[0] == x then 0 else 1 + FirstIndex(s[1..], x)
  }

  /** Python's list.remove(x) when x is present, and no change otherwise. */
  function RemoveFirst<T(==)>(s: seq<T>, x: T): (r: seq<T>)
    ensures x !in s ==> r == s
    ensures |r| == if x in s then |s| - 1 else |s|
  {
    if s == [] then []
    else if s[0] == x then s[1..]
    else [s[0]] + RemoveFirst(s[1..], x)
  }

  /** When `x` is present, list.remove(x) cuts out exactly its first
      occurrence and keeps every other entry in order. */
  lemma {:induction false} RemoveFirstAt<T>(s: seq<T>, x: T)
    requires x in s
    ensures RemoveFirst(s, x) == s[..FirstIndex(s, x)] + s[FirstIndex(s, x) + 1..]
  {
    if s[0] != x {
      var t := s[1..];
      assert s == [s[0]] + t;
      assert x in t;
      var k := FirstIndex(t, x);
      assert FirstIndex(s, x) == k + 1;
      RemoveFirstAt(t, x);
      var rest := t[..k] + t[k + 1..];
      assert RemoveFirst(s, x) == [s[0]] + rest;
      assert s[..k + 1] == [s[0]] + t[..k];
      assert s[k + 2..] == t[k + 1..];
      assert [s[0]] + rest == ([s[0]] + t[..k]) + t[k + 1..];
    } else {
      assert FirstIndex(s, x) == 0;
      assert s[..0] + s[1..] == s[1..];
    }
  }

  /** list.remove(x) takes away one copy of `x` when there is one, and
      nothing else. */
  lemma {:induction false} RemoveFirstMultiset<T>(s: seq<T>, x: T)
    ensures multiset(RemoveFirst(s, x)) == multiset(s) - multiset{x}
  {
    if s != [] {
      assert s == [s[0]] + s[1..];
      if s[0] != x {
        RemoveFirstMultiset(s[1..], x);
      }
    }
  }

  /** Removing a pair that was just appended, and was not there before,
      restores the list. */
  lemma {:induction false} RemoveUndoesAdd<T>(s: seq<T>, x: T)
    requires x !in s
    ensures RemoveFirst(s + [x], x) == s
  {
    var t := s + [x];
    assert t[|s|] == x;
    var k := FirstIndex(t, x);
    assert t[..|s|] == s;
    RemoveFirstAt(t, x);
    assert t[..k] + t[k + 1..] == s;
  }

  /** Appending a copy of a pair that is already listed and then removing it
      deletes the earlier copy, keeping the new one at the end. */
  lemma {:induction false} RemoveAfterDuplicateAdd<T>(s: seq<T>, x: T)
    requires x in s
    ensures RemoveFirst(s + [x], x) == RemoveFirst(s, x) + [x]
  {
    var t := s + [x];
    var k := FirstIndex(s, x);
    assert t[..k] == s[..k];
    assert t[k] == x;
    var k' := FirstIndex(t, x);
    RemoveFirstAt(s, x);
    RemoveFirstAt(t, x);
    assert t[k + 1..] == s[k + 1..] + [x];
  }

  /** The configured pair list, which the dashboard edits in place. */
  class Registry {
    var pairs: seq<string>

    constructor (initial: seq<string>)
      ensures pairs == initial
    {
      pairs := initial;
    }

    /** add_pair: append the submitted pair unless it is blank. */
    method AddPair(field: Option<string>) returns (added: bool)
      modifies this
      ensures added <==> FormPair(field) != []
      ensures added ==> pairs == old(pairs) + [FormPair(field)]
      ensures !added ==> pairs == old(pairs)
    {
      var pair := FormPair(field);
      if pair == [] {
        return false;
      }
      pairs := pairs + [pair];
      added := true;
    }

    /** remove_pair: delete the first entry equal to the submitted pair, if
        there is one. */
    method RemovePair(field: Option<string>) returns (removed: bool)
      modifies this
      ensures removed <==> FormPair(field) in old(pairs)
      ensures pairs == RemoveFirst(old(pairs), FormPair(field))
    {
      var pair := FormPair(field);
      removed := pair in pairs;
      if removed {
        pairs := RemoveFirst(pairs, pair);
      }
    }
  }
}
