/** The API-key string generator: a fixed `sk_live_` prefix followed by two
    pieces cut out of base-36 renderings of `Math.random()`. The two
    renderings are parameters. */
module KeyGenerator {
  import opened JsBuiltins

  const Prefix: string := "sk_live_"

  predicate IsBase36Digit(c: char)
  {
    '0' <= c <= '9' || 'a' <= c <= 'z'
  }

  /** The texts `Math.random().toString(36)` produces: "0" for zero, and
      otherwise "0." followed by base-36 digits. */
  predicate IsBase36Fraction(s: string)
  {
    s == "0" || (|s| >= 2 && s[0] == '0' && s[1] == '.'
                 && forall i :: 2 <= i < |s| ==> IsBase36Digit(s[i]))
  }

  /** `generateApiKey()`, where `draw1` and `draw2` are the two
      `Math.random().toString(36)` texts. Whatever they are, the key starts
      with the prefix and is at most 34 characters long: each piece is at
      most 13 characters. */
  function GenerateApiKey(draw1: string, draw2: string): (key: string)
    ensures 8 <= |key| <= 34
    ensures key[..8] == Prefix
  {
    Prefix + Substring(draw1, 2, 15) + Substring(draw2, 2, 15)
  }

  /** `substring(2, 15)` of a base-36 rendering holds only base-36 digits. */
  lemma PieceIsBase36(draw: string)
    requires IsBase36Fraction(draw)
    ensures |Substring(draw, 2, 15)| <= 13
    ensures forall i :: 0 <= i < |Substring(draw, 2, 15)| ==> IsBase36Digit(Substring(draw, 2, 15)[i])
  {
  }

  /** A generated key matches `^sk_live_[a-z0-9]*$`: every character after
      the prefix is a base-36 digit, every character is a lower-case
      letter, a digit or an underscore, and the only underscores are the
      prefix's two. */
  lemma {:induction false} GeneratedKeyCharacters(draw1: string, draw2: string)
    requires IsBase36Fraction(draw1) && IsBase36Fraction(draw2)
    ensures var key := GenerateApiKey(draw1, draw2);
            (forall i :: 8 <= i < |key| ==> IsBase36Digit(key[i]))
            && (forall i :: 0 <= i < |key| ==> IsBase36Digit(key[i]) || key[i] == '_')
            && (forall i :: 0 <= i < |key| && key[i] == '_' ==> i == 2 || i == 7)
  {
    var key := GenerateApiKey(draw1, draw2);
    var p1, p2 := Substring(draw1, 2, 15), Substring(draw2, 2, 15);
    PieceIsBase36(draw1);
    PieceIsBase36(draw2);
    assert key == Prefix + p1 + p2;
    forall i | 8 <= i < |key|
      ensures IsBase36Digit(key[i])
    {
      if i < 8 + |p1| {
        assert key[i] == p1[i - 8];
      } else {
        assert key[i] == p2[i - 8 - |p1|];
      }
    }
  }
}
