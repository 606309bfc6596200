/** Masking of the password in a connection string before it is written to
    the diagnostic log (Program.cs, lines 25-27). */
module Redaction {
  import opened Strings

  /** The token whose first occurrence starts the masked part. */
  const Token: string := "Password="
  /** What replaces everything from the first token onward. */
  const Mask: string := "Password=***"

  /** The display form of a connection string: when it contains the token, the
      part before the first occurrence followed by the mask; otherwise the
      string itself. */
  function Redact(s: string): (r: string)
    ensures !Contains(s, Token) ==> r == s
    ensures Contains(s, Token) ==>
      IsFirstOccurrence(s, Token, |r| - |Mask|) && r[..|r| - |Mask|] == s[..|r| - |Mask|]
      && r[|r| - |Mask|..] == Mask
  {
    if Contains(s, Token) then s[..IndexOf(s, Token)] + Mask else s
  }

  /** The redacted string is the kept prefix plus the mask, its length is the
      index of the first token plus 12, and the kept prefix holds no token. */
  lemma RedactCutsAtFirstToken(s: string, k: int)
    requires IsFirstOccurrence(s, Token, k)
    ensures Redact(s) == s[..k] + Mask
    ensures |Redact(s)| == k + 12
    ensures !Contains(Redact(s)[..k], Token)
  {
    assert 0 <= k <= |s| - |Token| && OccursAt(s, Token, k);
    IndexOfIsFirst(s, Token, k);
    PrefixBeforeFirstIsClean(s, Token, k);
    assert Redact(s)[..k] == s[..k];
  }

  /** The token has no proper border: its first character 'P' occurs nowhere
      else in it, so two occurrences of it can never overlap. */
  lemma TokenDoesNotOverlapItself(d: int)
    requires 0 < d < |Token|
    ensures Token[d..] != Token[..|Token| - d]
  {
    assert Token[..|Token| - d][0] == 'P';
    assert Token[d..][0] == Token[d] != 'P';
  }

  /** When `p` holds no token, the first token of `p + Token + rest` starts
      right after `p`, whatever `rest` is. */
  lemma {:induction false} FirstTokenAfterCleanPrefix(p: string, rest: string)
    requires !Contains(p, Token)
    ensures IsFirstOccurrence(p + Token + rest, Token, |p|)
  {
    var s := p + Token + rest;
    var n := |Token|;
    assert s[|p|..|p| + n] == Token;
    forall j | 0 <= j < |p| && OccursAt(s, Token, j)
      ensures false
    {
      if j + n <= |p| {
        assert s[j..j + n] == p[j..j + n];
        assert OccursAt(p, Token, j);
      } else {
        var d := |p| - j;
        assert 0 < d < n;
        assert Token[d..] == s[|p|..j + n] == Token[..n - d];
        TokenDoesNotOverlapItself(d);
      }
    }
  }

  /** Nothing after the first token survives: the display form does not
      depend on the secret that follows it. */
  lemma HidesSecret(p: string, secret: string)
    requires !Contains(p, Token)
    ensures Redact(p + Token + secret) == p + Mask
  {
    var s := p + Token + secret;
    FirstTokenAfterCleanPrefix(p, secret);
    RedactCutsAtFirstToken(s, |p|);
    assert s[..|p|] == p;
  }

  /** Redacting an already redacted string changes nothing. */
  lemma {:induction false} RedactIdempotent(s: string)
    ensures Redact(Redact(s)) == Redact(s)
  {
    if Contains(s, Token) {
      var k := IndexOf(s, Token);
      RedactCutsAtFirstToken(s, k);
      var p := s[..k];
      assert Redact(s)[..k] == p;
      assert Mask == Token + "***";
      assert Redact(s) == p + Token + "***";
      HidesSecret(p, "***");
    }
  }

  /** The worked example: the password value and the options after it are gone. */
  lemma RedactExample()
    ensures Redact("Host=h;Password=secret123;Other=x") == "Host=h;Password=***"
  {
    var p, secret := "Host=h;", "secret123;Other=x";
    assert |p| < |Token|;
    assert !Contains(p, Token);
    assert p + Token + secret == "Host=h;Password=secret123;Other=x";
    assert p + Mask == "Host=h;Password=***";
    HidesSecret(p, secret);
  }
}
