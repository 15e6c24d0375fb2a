/** The e-mail shape check of the registration form: the JavaScript regular
    expression `^[^\s@]+@[^\s@]+\.[^\s@]+$`.  It is a loose
    local@domain.tld shape, not the address grammar of RFC 5322.

    `EmailShape` states what the expression matches (a decomposition of the
    whole string into its four pieces); `MatchesEmailPattern` decides it by
    looking for the first `@`; `MatchesIffShape` proves the two agree. */
module EmailPattern {
  import opened JsText

  /** A run of characters allowed by the class `[^\s@]`: no white space, no `@`. */
  predicate Clean(x: string)
  {
    forall i :: 0 <= i < |x| ==> !IsJsSpace(x[i]) && x[i] != '@'
  }

  /** What `[^\s@]+` matches: a non-empty clean run. */
  predicate Piece(x: string)
  {
    |x| > 0 && Clean(x)
  }

  /** The whole string matches `^[^\s@]+@[^\s@]+\.[^\s@]+$`. */
  ghost predicate EmailShape(s: string)
  {
    exists local: string, host: string, tld: string ::
      Piece(local) && Piece(host) && Piece(tld) && s == local + "@" + host + "." + tld
  }

  /** Position of the first `c` in `s`, or `|s|` when there is none. */
  function IndexOf(s: string, c: char): (i: nat)
    ensures i <= |s|
    ensures forall k :: 0 <= k < i ==> s[k] != c
    ensures i < |s| ==> s[i] == c
  {
    if |s| == 0 then 0
    else if s[0] == c then 0
    else 1 + IndexOf(s[1..], c)
  }

  /** The domain part after `@` is clean and has a `.` with at least one
      character on either side. */
  predicate DomainOk(d: string)
  {
    Clean(d) && |d| >= 3 && '.' in d[1..|d| - 1]
  }

  /** The executable test the form runs: split at the first `@`. */
  predicate MatchesEmailPattern(s: string)
  {
    var at := IndexOf(s, '@');
    at < |s| && Piece(s[..at]) && DomainOk(s[at + 1..])
  }

  /** Every string the executable test accepts matches the regular expression. */
  lemma MatchesImpliesShape(s: string)
    requires MatchesEmailPattern(s)
    ensures EmailShape(s)
  {
    var at := IndexOf(s, '@');
    var d := s[at + 1..];
    var inner := d[1..|d| - 1];
    var j' :| 0 <= j' < |inner| && inner[j'] == '.';
    var j := j' + 1;
    var local, host, tld := s[..at], d[..j], d[j + 1..];
    assert d == host + "." + tld;
    assert s == local + "@" + d;
    assert Piece(host) && Piece(tld);
    assert s == local + "@" + host + "." + tld;
  }

  /** Every string of the regular expression passes the executable test. */
  lemma ShapeImpliesMatches(s: string, local: string, host: string, tld: string)
    requires Piece(local) && Piece(host) && Piece(tld) && s == local + "@" + host + "." + tld
    ensures MatchesEmailPattern(s)
  {
    var d := host + "." + tld;
    assert s == local + "@" + d;
    assert s[|local|] == '@';
    var at := IndexOf(s, '@');
    assert at == |local|;
    assert s[..at] == local;
    assert s[at + 1..] == d;
    assert d[1..|d| - 1][|host| - 1] == '.';
  }

  /** The executable test matches exactly the strings of the regular expression. */
  lemma MatchesIffShape(s: string)
    ensures MatchesEmailPattern(s) <==> EmailShape(s)
  {
    if MatchesEmailPattern(s) {
      MatchesImpliesShape(s);
    }
    if EmailShape(s) {
      var local: string, host: string, tld: string :|
        Piece(local) && Piece(host) && Piece(tld) && s == local + "@" + host + "." + tld;
      ShapeImpliesMatches(s, local, host, tld);
    }
  }

  /** A string the test accepts has no white space anywhere and exactly one
      `@`; in particular a leading or trailing space makes it invalid. */
  lemma MatchedHasNoSpaceAndOneAt(s: string)
    requires MatchesEmailPattern(s)
    ensures forall i :: 0 <= i < |s| ==> !IsJsSpace(s[i])
    ensures exists i :: 0 <= i < |s| && s[i] == '@'
    ensures forall i, j :: 0 <= i < |s| && 0 <= j < |s| && s[i] == '@' && s[j] == '@' ==> i == j
  {
    var at := IndexOf(s, '@');
    var d := s[at + 1..];
    forall i | 0 <= i < |s|
      ensures !IsJsSpace(s[i]) && (s[i] == '@' ==> i == at)
    {
      if i < at {
        assert s[i] == s[..at][i];
      } else if i > at {
        assert s[i] == d[i - at - 1];
      }
    }
  }
}
