/** `createPassword`: one draw per pass of a counted loop, each appending the character
    at the drawn index, or nothing when the index is past the end. The random source is
    an oracle sequence of integer indices. */
module Passwords {

  /** `s.charAt(index)`: the one-character string at `index`, or "" outside the string. */
  function CharAt(s: string, index: int): (r: string)
    ensures |r| <= 1
    ensures |r| == 1 <==> 0 <= index < |s|
    ensures |r| == 1 ==> r[0] == s[index]
  {
    if 0 <= index < |s| then [s[index]] else ""
  }

  /** How many times `for (let i = 0; i < n; i++)` runs. */
  function Iterations(n: int): nat
  {
    if n < 0 then 0 else n
  }

  /** The password the loop builds from `characters` and the draws it consumed. */
  function Password(characters: string, draws: seq<int>): string
  {
    if draws == [] then ""
    else Password(characters, draws[..|draws| - 1]) + CharAt(characters, draws[|draws| - 1])
  }

  /** The draws `Math.round(Math.random() * |characters|)` can produce: 0 to |characters|,
      both included. Each such draw either picks a character or lies just past the end. */
  predicate RoundedDraws(characters: string, draws: seq<int>)
    ensures RoundedDraws(characters, draws) <==>
      forall i :: 0 <= i < |draws| ==> |CharAt(characters, draws[i])| == 1 || draws[i] == |characters|
  {
    forall i :: 0 <= i < |draws| ==> 0 <= draws[i] <= |characters|
  }

  /** Draws that all hit a character. */
  predicate DrawsInRange(characters: string, draws: seq<int>)
  {
    forall i :: 0 <= i < |draws| ==> 0 <= draws[i] < |characters|
  }

  /** The loop of `createPassword`, consuming one draw per pass. */
  method CreatePassword(characters: string, passwordLength: int, draws: seq<int>) returns (result: string)
    requires Iterations(passwordLength) <= |draws|
    ensures result == Password(characters, draws[..Iterations(passwordLength)])
    ensures |result| <= Iterations(passwordLength)
    ensures forall j :: 0 <= j < |result| ==> result[j] in characters
  {
    result := "";
    var i := 0;
    while i < passwordLength
      invariant 0 <= i <= Iterations(passwordLength)
      invariant result == Password(characters, draws[..i])
      invariant |result| <= i
      invariant forall j :: 0 <= j < |result| ==> result[j] in characters
    {
      var characterIndex := draws[i];
      result := result + CharAt(characters, characterIndex);
      assert draws[..i + 1][..i] == draws[..i];
      i := i + 1;
    }
  }

  /** At most one character per draw; exactly one per draw precisely when every draw
      hits a character. */
  lemma {:induction false} PasswordLength(characters: string, draws: seq<int>)
    ensures |Password(characters, draws)| <= |draws|
    ensures |Password(characters, draws)| == |draws| <==> DrawsInRange(characters, draws)
  {
    if draws != [] {
      var init := draws[..|draws| - 1];
      PasswordLength(characters, init);
      if DrawsInRange(characters, draws) {
        assert DrawsInRange(characters, init);
      } else if DrawsInRange(characters, init) {
        assert !(0 <= draws[|draws| - 1] < |characters|);
      }
    }
  }

  /** With the draws `Math.round` produces, the password comes out short exactly when
      some draw equals the alphabet's length. */
  lemma ShortExactlyWhenEndIsDrawn(characters: string, draws: seq<int>)
    requires RoundedDraws(characters, draws)
    ensures |Password(characters, draws)| < |draws| <==>
      exists i :: 0 <= i < |draws| && draws[i] == |characters|
  {
    PasswordLength(characters, draws);
  }

  /** When every draw hits, the password is the drawn characters in draw order. */
  lemma {:induction false} PasswordPicks(characters: string, draws: seq<int>)
    requires DrawsInRange(characters, draws)
    ensures |Password(characters, draws)| == |draws|
    ensures forall i :: 0 <= i < |draws| ==> Password(characters, draws)[i] == characters[draws[i]]
  {
    if draws != [] {
      var init := draws[..|draws| - 1];
      PasswordPicks(characters, init);
    }
  }

  /** Every character of the password occurs in `characters`. */
  lemma {:induction false} PasswordDrawnFrom(characters: string, draws: seq<int>)
    ensures forall j :: 0 <= j < |Password(characters, draws)| ==> Password(characters, draws)[j] in characters
  {
    if draws != [] {
      PasswordDrawnFrom(characters, draws[..|draws| - 1]);
    }
  }

  /** All-zero draws over a non-empty alphabet repeat its first character. */
  lemma PasswordAllZero(characters: string, draws: seq<int>)
    requires |characters| > 0
    requires forall i :: 0 <= i < |draws| ==> draws[i] == 0
    ensures Password(characters, draws) == seq(|draws|, _ => characters[0])
  {
    PasswordPicks(characters, draws);
  }

  /** A draw equal to the alphabet's length adds nothing: with the lower-case alphabet,
      the draws 26, 0, 1, 2 give the three-character password "abc". */
  lemma EndDrawGivesShortPassword()
    ensures Password("abcdefghijklmnopqrstuvwxyz", [26, 0, 1, 2]) == "abc"
  {
    var cs := "abcdefghijklmnopqrstuvwxyz";
    var ds := [26, 0, 1, 2];
    assert ds[..1][..0] == [] && ds[..2][..1] == ds[..1] && ds[..3][..2] == ds[..2] && ds[..4] == ds;
    assert Password(cs, ds[..1]) == "";
    assert Password(cs, ds[..2]) == "a";
    assert Password(cs, ds[..3]) == "ab";
  }
}
