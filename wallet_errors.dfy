/** Classification of wallet failures as user cancellations: a thrown value
    counts when it is an `Error` whose lower-cased message contains one of a
    fixed list of phrases, or whose name is exactly the mobile wallet
    adapter's error name. */
module WalletErrors {

  /** A thrown value: an `Error` instance, or anything else. */
  datatype Thrown = Error(name: string, message: string) | NotAnError

  const AdapterErrorName: string := "SolanaMobileWalletAdapterError"

  // ---------------------------------------------------------------------------
  // Strings

  /** `toLowerCase` on one character (ASCII letters only). */
  function LowerChar(c: char): char
  {
    if 'A' <= c <= 'Z' then (c as int + 32) as char else c
  }

  function Lower(s: string): (r: string)
    ensures |r| == |s|
    ensures forall i :: 0 <= i < |s| ==> r[i] == LowerChar(s[i])
  {
    seq(|s|, i requires 0 <= i < |s| => LowerChar(s[i]))
  }

  /** `p` occurs in `s` starting at position `i`. */
  ghost predicate OccursAt(s: string, p: string, i: int)
  {
    0 <= i && i + |p| <= |s| && s[i..i + |p|] == p
  }

  /** `s.includes(p)`: tries every start position from the left. */
  function Contains(s: string, p: string): (r: bool)
    ensures r <==> exists i :: OccursAt(s, p, i)
    decreases |s|
  {
    if |p| > |s| then false
    else if s[..|p|] == p then (assert OccursAt(s, p, 0); true)
    else
      var r := Contains(s[1..], p);
      assert r ==> exists i :: OccursAt(s, p, i) by {
        if r {
          var i :| OccursAt(s[1..], p, i);
          assert s[1..][i..i + |p|] == s[i + 1..i + 1 + |p|];
          assert OccursAt(s, p, i + 1);
        }
      }
      assert (exists i :: OccursAt(s, p, i)) ==> r by {
        if exists i :: OccursAt(s, p, i) {
          var i :| OccursAt(s, p, i);
          assert i != 0;
          assert s[1..][i - 1..i - 1 + |p|] == s[i..i + |p|];
          assert OccursAt(s[1..], p, i - 1);
        }
      }
      r
  }

  /** An occurrence of an occurrence is an occurrence. */
  lemma ContainsTransitive(s: string, q: string, p: string)
    requires Contains(s, q) && Contains(q, p)
    ensures Contains(s, p)
  {
    var i :| OccursAt(s, q, i);
    var j :| OccursAt(q, p, j);
    forall k | 0 <= k < |p| ensures s[i + j + k] == p[k] {
      assert p[k] == q[j..j + |p|][k] == q[j + k];
      assert q[j + k] == s[i..i + |q|][j + k] == s[i + j + k];
    }
    assert s[i + j..i + j + |p|] == p;
    assert OccursAt(s, p, i + j);
  }

  /** Lower-casing keeps occurrences: if `p` occurs in `s` in any case, the
      lower-cased `p` occurs in the lower-cased `s`. */
  lemma ContainsLower(s: string, p: string)
    requires Contains(s, p)
    ensures Contains(Lower(s), Lower(p))
  {
    var i :| OccursAt(s, p, i);
    assert Lower(s)[i..i + |p|] == Lower(p) by {
      forall k | 0 <= k < |p| ensures Lower(s)[i..i + |p|][k] == Lower(p)[k] {
        assert s[i..i + |p|][k] == p[k];
      }
    }
    assert OccursAt(Lower(s), Lower(p), i);
  }

  /** A phrase holding a character that does not appear in `s` does not
      occur in it. */
  lemma NotContainsMissingChar(s: string, p: string, c: char)
    requires c in p && c !in s
    ensures !Contains(s, p)
  {
    var k :| 0 <= k < |p| && p[k] == c;
    forall i | 0 <= i < |s| ensures !OccursAt(s, p, i) {
      if i + |p| <= |s| {
        assert s[i..i + |p|][k] == s[i + k];
        assert s[i + k] in s;
      }
    }
  }

  // ---------------------------------------------------------------------------
  // isWalletCancellationError

  /** `isWalletCancellationError`. Of the seven phrases, "user rejected" and
      "user cancelled" are redundant: they contain "rejected" and
      "cancelled". So the result holds exactly when the value is an `Error`
      named `SolanaMobileWalletAdapterError` or whose lower-cased message
      contains one of the five remaining phrases. */
  function IsWalletCancellationError(error: Thrown): (r: bool)
    ensures error.NotAnError? ==> !r
    ensures error.Error? && error.name == AdapterErrorName ==> r
    ensures r <==> (error.Error? &&
              (error.name == AdapterErrorName
               || Contains(Lower(error.message), "cancellationexception")
               || Contains(Lower(error.message), "user denied")
               || Contains(Lower(error.message), "rejected")
               || Contains(Lower(error.message), "cancelled")
               || Contains(Lower(error.message), "canceled")))
  {
    match error
    case NotAnError => false
    case Error(name, rawMessage) =>
      var message := Lower(rawMessage);
      var r :=
        Contains(message, "cancellationexception")
        || Contains(message, "user rejected")
        || Contains(message, "user cancelled")
        || Contains(message, "user denied")
        || name == AdapterErrorName
        || Contains(message, "rejected")
        || Contains(message, "cancelled")
        || Contains(message, "canceled");
      assert Contains(message, "user rejected") ==> Contains(message, "rejected") by {
        if Contains(message, "user rejected") {
          assert OccursAt("user rejected", "rejected", 5);
          ContainsTransitive(message, "user rejected", "rejected");
        }
      }
      assert Contains(message, "user cancelled") ==> Contains(message, "cancelled") by {
        if Contains(message, "user cancelled") {
          assert OccursAt("user cancelled", "cancelled", 5);
          ContainsTransitive(message, "user cancelled", "cancelled");
        }
      }
      r
  }

  /** Any error whose message contains "rejected", "cancelled" or "canceled"
      in any mix of upper and lower case is a cancellation, whatever its name. */
  lemma GenericPhraseInAnyCase(name: string, message: string, phrase: string)
    requires Lower(phrase) in ["rejected", "cancelled", "canceled"]
    requires Contains(message, phrase)
    ensures IsWalletCancellationError(Error(name, message))
  {
    ContainsLower(message, phrase);
  }

  /** The Java `CancellationException` text is a cancellation, although it
      contains neither "cancelled" nor "canceled". */
  lemma CancellationExceptionIsCancellation(name: string)
    ensures IsWalletCancellationError(Error(name, "CancellationException"))
    ensures !Contains(Lower("CancellationException"), "cancelled")
    ensures !Contains(Lower("CancellationException"), "canceled")
  {
    var l := Lower("CancellationException");
    assert l == "cancellationexception";
    assert OccursAt(l, "cancellationexception", 0);
    NotContainsMissingChar(l, "cancelled", 'd');
    NotContainsMissingChar(l, "canceled", 'd');
  }

  /** "denied" alone is not a cancellation; only the phrase "user denied" is. */
  lemma DenialNeedsUserDenied(name: string)
    requires name != AdapterErrorName
    ensures !IsWalletCancellationError(Error(name, "Denied"))
    ensures IsWalletCancellationError(Error(name, "User Denied"))
  {
    var l := Lower("Denied");
    assert l == "denied";
    NotContainsMissingChar(l, "cancellationexception", 'c');
    NotContainsMissingChar(l, "user denied", 'u');
    NotContainsMissingChar(l, "rejected", 'r');
    NotContainsMissingChar(l, "cancelled", 'c');
    NotContainsMissingChar(l, "canceled", 'c');
    assert Lower("User Denied") == "user denied";
    assert OccursAt("user denied", "user denied", 0);
  }

  /** The name comparison is case-sensitive: the adapter's error name in lower
      case, with a neutral message, is not a cancellation. */
  lemma NameMatchIsCaseSensitive()
    ensures !IsWalletCancellationError(Error("solanamobilewalletadaptererror", "Failed"))
    ensures IsWalletCancellationError(Error(AdapterErrorName, "Failed"))
  {
    var l := Lower("Failed");
    assert l == "failed";
    NotContainsMissingChar(l, "cancellationexception", 'c');
    NotContainsMissingChar(l, "user denied", 'u');
    NotContainsMissingChar(l, "rejected", 'r');
    NotContainsMissingChar(l, "cancelled", 'c');
    NotContainsMissingChar(l, "canceled", 'c');
  }
}
