/** The four character classes of the generator, their fixed alphabets, and the
    combined alphabet that `generatePasswordString` assembles from the enabled ones. */
module Alphabets {

  datatype CharClass = Upper | Lower | Digit | Symbol

  const UpperCaseCharacters: string := "ABCDEFGHIJKLMNOPQRSTUVWXYZ"
  const LowerCaseCharacters: string := "abcdefghijklmnopqrstuvwxyz"
  const DigitCharacters: string := "1234567890"
  const SymbolCharacters: string := "!@#$%^&*(){}[]"

  function Alphabet(k: CharClass): string
  {
    match k
    case Upper => UpperCaseCharacters
    case Lower => LowerCaseCharacters
    case Digit => DigitCharacters
    case Symbol => SymbolCharacters
  }

  /** The order in which the classes are appended to the character list. */
  const ClassOrder: seq<CharClass> := [Upper, Lower, Digit, Symbol]

  function Rank(k: CharClass): nat
  {
    match k
    case Upper => 0
    case Lower => 1
    case Digit => 2
    case Symbol => 3
  }

  /** The four checkbox flags of the screen. */
  datatype ClassFlags = ClassFlags(upperCase: bool, lowerCase: bool, numbers: bool, symbol: bool)
  {
    predicate Enables(k: CharClass)
    {
      match k
      case Upper => upperCase
      case Lower => lowerCase
      case Digit => numbers
      case Symbol => symbol
    }
  }

  /** The classes of `ks` that `f` enables, in the order of `ks`. */
  function EnabledIn(f: ClassFlags, ks: seq<CharClass>): seq<CharClass>
  {
    if ks == [] then []
    else
      var last := ks[|ks| - 1];
      EnabledIn(f, ks[..|ks| - 1]) + (if f.Enables(last) then [last] else [])
  }

  function EnabledClasses(f: ClassFlags): seq<CharClass>
  {
    EnabledIn(f, ClassOrder)
  }

  /** The strings `alphabet(k)` for the `k` of `ks`, concatenated in order. */
  function Join<K>(ks: seq<K>, alphabet: K -> string): string
  {
    if ks == [] then "" else Join(ks[..|ks| - 1], alphabet) + alphabet(ks[|ks| - 1])
  }

  /** The alphabets of `ks`, concatenated in order. */
  function Concat(ks: seq<CharClass>): string
  {
    Join(ks, Alphabet)
  }

  /** The combined alphabet (`characterList`) for the flags `f`. */
  function CharacterList(f: ClassFlags): string
  {
    Concat(EnabledClasses(f))
  }

  function SizeIf(b: bool, n: nat): nat
  {
    if b then n else 0
  }

  /** The part one class contributes to the combined alphabet. */
  function Part(f: ClassFlags, k: CharClass): string
  {
    if f.Enables(k) then Alphabet(k) else ""
  }

  /** Builds the character list as the screen does: one conditional append per class,
      upper case first, then lower case, digits and symbols. */
  method BuildCharacterList(f: ClassFlags) returns (characterList: string)
    ensures characterList == CharacterList(f)
  {
    characterList := "";
    if f.upperCase {
      characterList := characterList + UpperCaseCharacters;
    }
    assert characterList == Part(f, Upper);
    if f.lowerCase {
      characterList := characterList + LowerCaseCharacters;
    }
    assert characterList == Part(f, Upper) + Part(f, Lower);
    if f.numbers {
      characterList := characterList + DigitCharacters;
    }
    assert characterList == Part(f, Upper) + Part(f, Lower) + Part(f, Digit);
    if f.symbol {
      characterList := characterList + SymbolCharacters;
    }
    CharacterListParts(f);
  }

  /** Considering one more class appends its alphabet exactly when it is enabled. */
  lemma AppendOneClass(f: ClassFlags, ks: seq<CharClass>, k: CharClass)
    ensures EnabledIn(f, ks + [k]) == EnabledIn(f, ks) + (if f.Enables(k) then [k] else [])
    ensures Concat(EnabledIn(f, ks + [k])) == Concat(EnabledIn(f, ks)) + Part(f, k)
  {
    assert (ks + [k])[..|ks|] == ks;
    var e := EnabledIn(f, ks);
    if f.Enables(k) {
      assert (e + [k])[..|e|] == e;
    } else {
      assert e + [] == e;
    }
  }

  /** The combined alphabet in closed form: the enabled alphabets in the order upper case,
      lower case, digits, symbols. */
  lemma CharacterListParts(f: ClassFlags)
    ensures CharacterList(f) ==
      Part(f, Upper) + Part(f, Lower) + Part(f, Digit) + Part(f, Symbol)
  {
    var k0: seq<CharClass> := [];
    var k1 := k0 + [Upper];
    var k2 := k1 + [Lower];
    var k3 := k2 + [Digit];
    var k4 := k3 + [Symbol];
    AppendOneClass(f, k0, Upper);
    assert Concat(EnabledIn(f, k1)) == Part(f, Upper);
    AppendOneClass(f, k1, Lower);
    assert Concat(EnabledIn(f, k2)) == Part(f, Upper) + Part(f, Lower);
    AppendOneClass(f, k2, Digit);
    assert Concat(EnabledIn(f, k3)) == Part(f, Upper) + Part(f, Lower) + Part(f, Digit);
    AppendOneClass(f, k3, Symbol);
    assert k4 == ClassOrder;
  }

  /** `EnabledIn` keeps exactly the enabled classes of `ks`, in their order. */
  lemma {:induction false} EnabledInSelects(f: ClassFlags, ks: seq<CharClass>)
    ensures forall k :: k in EnabledIn(f, ks) <==> k in ks && f.Enables(k)
    ensures |EnabledIn(f, ks)| <= |ks|
    ensures forall i :: 0 <= i < |EnabledIn(f, ks)| ==> EnabledIn(f, ks)[i] in ks
  {
    if ks != [] {
      var init := ks[..|ks| - 1];
      EnabledInSelects(f, init);
      assert ks == init + [ks[|ks| - 1]];
    }
  }

  predicate RankIncreasing(ks: seq<CharClass>)
  {
    forall i, j :: 0 <= i < j < |ks| ==> Rank(ks[i]) < Rank(ks[j])
  }

  /** Selecting the enabled classes keeps them in the order they were listed in. */
  lemma {:induction false} EnabledInKeepsOrder(f: ClassFlags, ks: seq<CharClass>)
    requires RankIncreasing(ks)
    ensures RankIncreasing(EnabledIn(f, ks))
  {
    if ks != [] {
      var init, last := ks[..|ks| - 1], ks[|ks| - 1];
      EnabledInKeepsOrder(f, init);
      EnabledInSelects(f, init);
      var e := EnabledIn(f, init);
      forall i | 0 <= i < |e|
        ensures Rank(e[i]) < Rank(last)
      {
        var j :| 0 <= j < |init| && init[j] == e[i];
      }
    }
  }

  /** The combined alphabet is built from exactly the enabled classes, each once, in
      strictly increasing rank: upper case, lower case, digits, symbols. */
  lemma EnabledClassesInOrder(f: ClassFlags)
    ensures forall k :: k in EnabledClasses(f) <==> f.Enables(k)
    ensures RankIncreasing(EnabledClasses(f))
  {
    EnabledInSelects(f, ClassOrder);
    EnabledInKeepsOrder(f, ClassOrder);
  }

  /** A character is in the concatenation exactly when one of the listed alphabets holds it. */
  lemma {:induction false} JoinMembers<K>(ks: seq<K>, alphabet: K -> string, c: char)
    ensures c in Join(ks, alphabet) <==> exists k :: k in ks && c in alphabet(k)
  {
    if ks != [] {
      var init, last := ks[..|ks| - 1], ks[|ks| - 1];
      JoinMembers(init, alphabet, c);
      assert c in Join(ks, alphabet) <==> c in Join(init, alphabet) || c in alphabet(last);
      if c in Join(ks, alphabet) && c in Join(init, alphabet) {
        var k :| k in init && c in alphabet(k);
        assert k in ks;
      }
      if exists k :: k in ks && c in alphabet(k) {
        var k :| k in ks && c in alphabet(k);
        var i :| 0 <= i < |ks| && ks[i] == k;
        if i < |init| {
          assert init[i] == k;
        }
      }
    }
  }

  /** Every character of the combined alphabet comes from an enabled class, and every
      character of an enabled class is in it. */
  lemma CharacterListMembers(f: ClassFlags, c: char)
    ensures c in CharacterList(f) <==> exists k :: f.Enables(k) && c in Alphabet(k)
  {
    JoinMembers(EnabledClasses(f), Alphabet, c);
    EnabledInSelects(f, ClassOrder);
  }

  /** No character belongs to two classes. */
  lemma AlphabetsDisjoint(k1: CharClass, k2: CharClass, c: char)
    requires c in Alphabet(k1) && c in Alphabet(k2)
    ensures k1 == k2
  {
    AlphabetRange(k1, c);
    AlphabetRange(k2, c);
  }

  /** The character ranges the four alphabets occupy. */
  predicate InRangeOf(k: CharClass, c: char)
  {
    match k
    case Upper => 'A' <= c <= 'Z'
    case Lower => 'a' <= c <= 'z'
    case Digit => '0' <= c <= '9'
    case Symbol => !('A' <= c <= 'Z') && !('a' <= c <= 'z') && !('0' <= c <= '9')
  }

  lemma AlphabetRange(k: CharClass, c: char)
    requires c in Alphabet(k)
    ensures InRangeOf(k, c)
  {
    var s := Alphabet(k);
    var i :| 0 <= i < |s| && s[i] == c;
    match k
    case Upper =>
    case Lower =>
    case Digit =>
    case Symbol =>
  }

  /** A character of the combined alphabet never belongs to a disabled class. */
  lemma CharacterListExcludesDisabled(f: ClassFlags, k: CharClass, c: char)
    requires c in CharacterList(f) && c in Alphabet(k)
    ensures f.Enables(k)
  {
    CharacterListMembers(f, c);
    var k' :| f.Enables(k') && c in Alphabet(k');
    AlphabetsDisjoint(k, k', c);
  }

  /** The length of the combined alphabet is the sum of the sizes 26, 26, 10 and 14 of
      the enabled classes. */
  lemma CharacterListLength(f: ClassFlags)
    ensures |CharacterList(f)| ==
      SizeIf(f.upperCase, 26) + SizeIf(f.lowerCase, 26) + SizeIf(f.numbers, 10) + SizeIf(f.symbol, 14)
  {
    CharacterListParts(f);
  }

  /** With lower case enabled the combined alphabet holds the whole lower-case alphabet. */
  lemma LowerCaseKeepsAlphabetNonEmpty(f: ClassFlags)
    requires f.lowerCase
    ensures |CharacterList(f)| >= 26
    ensures forall i :: 0 <= i < 26 ==> LowerCaseCharacters[i] in CharacterList(f)
  {
    CharacterListLength(f);
    forall i | 0 <= i < 26
      ensures LowerCaseCharacters[i] in CharacterList(f)
    {
      CharacterListMembers(f, LowerCaseCharacters[i]);
      assert f.Enables(Lower);
    }
  }
}
