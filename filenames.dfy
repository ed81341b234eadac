/**
 * Turning chart titles and lookup numbers into file names, and joining paths.
 * Both export scripts make a name safe by `.replace("/", "").replace(":", "")`.
 */
module Filenames {

  /** The separator of the directory paths the scripts build. */
  const Sep: char := '/'

  /** `s.replace([c], "")`: every occurrence of `c` deleted, the rest kept in order. */
  function RemoveChar(s: string, c: char): (r: string)
    ensures forall x :: x in r <==> x in s && x != c
    ensures |r| <= |s|
  {
    if s == [] then []
    else
      assert s == [s[0]] + s[1..];
      (if s[0] == c then [] else [s[0]]) + RemoveChar(s[1..], c)
  }

  /** The name with `/` and then `:` removed. */
  function Sanitise(s: string): (r: string)
    ensures Sep !in r && ':' !in r
    ensures forall x :: x in r <==> x in s && x != Sep && x != ':'
    ensures |r| <= |s|
  {
    RemoveChar(RemoveChar(s, Sep), ':')
  }

  /** Deleting `c` keeps every other character as often as it occurred, and shortens by the number of `c`s. */
  lemma {:induction false} RemoveCharCounts(s: string, c: char)
    ensures forall x :: x != c ==> multiset(RemoveChar(s, c))[x] == multiset(s)[x]
    ensures multiset(RemoveChar(s, c))[c] == 0
    ensures |RemoveChar(s, c)| == |s| - multiset(s)[c]
  {
    if s != [] {
      RemoveCharCounts(s[1..], c);
      assert s == [s[0]] + s[1..];
      var head := if s[0] == c then [] else [s[0]];
      assert multiset(RemoveChar(s, c)) == multiset(head) + multiset(RemoveChar(s[1..], c));
      assert multiset(s) == multiset([s[0]]) + multiset(s[1..]);
    }
  }

  /** Deleting a character distributes over concatenation. */
  lemma {:induction false} RemoveCharAppend(a: string, b: string, c: char)
    ensures RemoveChar(a + b, c) == RemoveChar(a, c) + RemoveChar(b, c)
  {
    if a == [] {
      assert a + b == b;
    } else {
      var head := if a[0] == c then [] else [a[0]];
      assert (a + b)[0] == a[0];
      assert (a + b)[1..] == a[1..] + b;
      RemoveCharAppend(a[1..], b, c);
      calc {
        RemoveChar(a + b, c);
        head + RemoveChar(a[1..] + b, c);
        head + (RemoveChar(a[1..], c) + RemoveChar(b, c));
        (head + RemoveChar(a[1..], c)) + RemoveChar(b, c);
        RemoveChar(a, c) + RemoveChar(b, c);
      }
    }
  }

  /** A string without `c` is left alone. */
  lemma {:induction false} RemoveCharAbsent(s: string, c: char)
    requires c !in s
    ensures RemoveChar(s, c) == s
  {
    if s != [] {
      assert s[0] in s;
      assert forall x :: x in s[1..] ==> x in s;
      RemoveCharAbsent(s[1..], c);
      assert s == [s[0]] + s[1..];
    }
  }

  /** A name without `/` and `:` is already safe. */
  lemma SanitiseAbsent(s: string)
    requires Sep !in s && ':' !in s
    ensures Sanitise(s) == s
  {
    RemoveCharAbsent(s, Sep);
    RemoveCharAbsent(s, ':');
  }

  /** Sanitising a second time changes nothing. */
  lemma SanitiseIdempotent(s: string)
    ensures Sanitise(Sanitise(s)) == Sanitise(s)
  {
    SanitiseAbsent(Sanitise(s));
  }

  /** Sanitising distributes over concatenation. */
  lemma SanitiseAppend(a: string, b: string)
    ensures Sanitise(a + b) == Sanitise(a) + Sanitise(b)
  {
    RemoveCharAppend(a, b, Sep);
    RemoveCharAppend(RemoveChar(a, Sep), RemoveChar(b, Sep), ':');
  }

  /** `os.path.join(a, b)` with one abstract separator. */
  function PathJoin(a: string, b: string): string {
    a + [Sep] + b
  }
}
