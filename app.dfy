/** The length bound of the form's validation schema (`PasswordSchema`). */
module Schema {

  const MinLength: int := 4
  const MaxLength: int := 16

  /** A length the schema lets through to submission: at least 4 and at most 16. */
  predicate ValidLength(n: int)
  {
    MinLength <= n <= MaxLength
  }
}

/** The password generator screen: its state, the checkbox handlers, generation, reset
    and form submission. */
module App {
  import opened Alphabets
  import opened Passwords
  import opened Schema

  /** No character of `s` belongs to a class that `f` leaves out. */
  predicate OnlyEnabledClasses(f: ClassFlags, s: string)
  {
    forall j, k :: 0 <= j < |s| && s[j] in Alphabet(k) ==> f.Enables(k)
  }

  /** `c` lies in the alphabet of a class that `f` selects. */
  predicate InSelectedClass(f: ClassFlags, c: char)
  {
    exists k :: f.Enables(k) && c in Alphabet(k)
  }

  /** Every character of a generated password lies in the alphabet of a selected class,
      and in no alphabet of a class left unselected. */
  lemma PasswordFromEnabledClasses(f: ClassFlags, draws: seq<int>)
    ensures forall j :: 0 <= j < |Password(CharacterList(f), draws)| ==>
      InSelectedClass(f, Password(CharacterList(f), draws)[j])
    ensures OnlyEnabledClasses(f, Password(CharacterList(f), draws))
  {
    var p := Password(CharacterList(f), draws);
    PasswordDrawnFrom(CharacterList(f), draws);
    forall j | 0 <= j < |p|
      ensures InSelectedClass(f, p[j])
    {
      CharacterListMembers(f, p[j]);
    }
    forall j, k | 0 <= j < |p| && p[j] in Alphabet(k)
      ensures f.Enables(k)
    {
      CharacterListExcludesDisabled(f, k, p[j]);
    }
  }

  class PasswordScreen {
    var password: string
    var isPassGenerated: bool
    var lowerCase: bool
    var upperCase: bool
    var numbers: bool
    var symbol: bool

    /** Holds in every reachable state: lower case stays selected, and no password is
        shown before one is generated. Only the first half is used (by
        `AlphabetNeverEmpty`); the second is kept to record the screen's other invariant. */
    ghost predicate Valid()
      reads this
    {
      lowerCase && (!isPassGenerated ==> password == "")
    }

    function Selected(): ClassFlags
      reads this
    {
      ClassFlags(upperCase, lowerCase, numbers, symbol)
    }

    /** The initial state: lower case only, no password. */
    constructor ()
      ensures Valid()
      ensures password == "" && !isPassGenerated
      ensures Selected() == ClassFlags(false, true, false, false)
    {
      password := "";
      isPassGenerated := false;
      lowerCase := true;
      upperCase := false;
      numbers := false;
      symbol := false;
    }

    /** The lower-case checkbox sets its flag and nothing else. */
    method PressLowerCase()
      requires Valid()
      modifies this`lowerCase
      ensures Valid()
      ensures Selected() == old(Selected()).(lowerCase := true)
    {
      lowerCase := true;
    }

    /** The upper-case checkbox sets its flag and nothing else. */
    method PressUpperCase()
      requires Valid()
      modifies this`upperCase
      ensures Valid()
      ensures Selected() == old(Selected()).(upperCase := true)
    {
      upperCase := true;
    }

    /** The number checkbox sets its flag and nothing else. */
    method PressNumbers()
      requires Valid()
      modifies this`numbers
      ensures Valid()
      ensures Selected() == old(Selected()).(numbers := true)
    {
      numbers := true;
    }

    /** The symbol checkbox sets its flag and nothing else. */
    method PressSymbol()
      requires Valid()
      modifies this`symbol
      ensures Valid()
      ensures Selected() == old(Selected()).(symbol := true)
    {
      symbol := true;
    }

    /** `generatePasswordString`: assembles the alphabet of the selected classes, builds a
        password from the draws and shows it; the selection is left as it was. */
    method GeneratePasswordString(passwordLength: int, draws: seq<int>)
      requires Valid()
      requires Iterations(passwordLength) <= |draws|
      modifies this`password, this`isPassGenerated
      ensures Valid()
      ensures Selected() == old(Selected())
      ensures password == Password(CharacterList(Selected()), draws[..Iterations(passwordLength)])
      ensures isPassGenerated
      ensures |password| <= Iterations(passwordLength)
      ensures OnlyEnabledClasses(Selected(), password)
    {
      var characterList := BuildCharacterList(Selected());
      var passwordString := CreatePassword(characterList, passwordLength, draws);
      PasswordFromEnabledClasses(Selected(), draws[..Iterations(passwordLength)]);
      password := passwordString;
      isPassGenerated := true;
    }

    /** `resetPassword`: back to the initial state. */
    method ResetPassword()
      modifies this
      ensures Valid()
      ensures password == "" && !isPassGenerated
      ensures Selected() == ClassFlags(false, true, false, false)
    {
      password := "";
      lowerCase := true;
      upperCase := false;
      numbers := false;
      symbol := false;
      isPassGenerated := false;
    }

    /** Pressing the generate button: the form calls `generatePasswordString` only when
        the schema accepts the length; otherwise nothing changes. */
    method Submit(passwordLength: int, draws: seq<int>) returns (submitted: bool)
      requires Valid()
      requires ValidLength(passwordLength) ==> passwordLength <= |draws|
      modifies this`password, this`isPassGenerated
      ensures Valid()
      ensures submitted <==> ValidLength(passwordLength)
      ensures Selected() == old(Selected())
      ensures submitted ==> isPassGenerated
      ensures submitted ==> password == Password(CharacterList(Selected()), draws[..passwordLength])
      ensures submitted ==> |password| <= passwordLength <= MaxLength
      ensures !submitted ==> password == old(password) && isPassGenerated == old(isPassGenerated)
    {
      submitted := ValidLength(passwordLength);
      if submitted {
        GeneratePasswordString(passwordLength, draws);
      }
    }

    /** In every reachable state the alphabet holds at least the 26 lower-case letters. */
    lemma AlphabetNeverEmpty()
      requires Valid()
      ensures |CharacterList(Selected())| >= 26
    {
      LowerCaseKeepsAlphabetNonEmpty(Selected());
    }
  }
}
