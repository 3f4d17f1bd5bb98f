# Password generator screen, modelled in Dafny

This models a React Native screen that generates passwords. The user types a length and
ticks character classes: lower case, upper case, numbers and symbols. On submit, the
screen does two things:

- It builds a character list. This is the alphabets of the ticked classes, appended in
  the fixed order upper case, lower case, digits, symbols.
- It draws that many random indices into the list and appends the character at each one.

The model has four modules:

- `Alphabets` (`alphabets.dfy`) holds the four alphabets and the combined alphabet
  `CharacterList(f)` for a set of checkbox flags `f`. It also holds `BuildCharacterList`,
  the conditional-append code of `generatePasswordString`, proved equal to
  `CharacterList`. The lemmas give:
  - the closed form of the combined alphabet, and its length (26/26/10/14 per enabled class);
  - the order of its classes;
  - its members: exactly the characters of the enabled classes;
  - that the four alphabets are pairwise disjoint.
- `Passwords` (`passwords.dfy`) holds `createPassword`. The random source is an oracle:
  a sequence of integer indices, one per loop pass. `CharAt` behaves like JavaScript's
  `charAt`: an index outside the string yields `""`. `CreatePassword` is the counted
  loop, proved against the specification function `Password`.
- `Schema` (`app.dfy`) holds the length bound 4..16 of the form's validation schema as
  the predicate `ValidLength`.
- `App` (`app.dfy`) holds the component state as the class `PasswordScreen`. Its fields
  are the four flags, `password` and `isPassGenerated`. It has one method per handler:
  the four checkboxes, generate, reset and submit. The invariant `Valid()` says that
  lower case is always selected and that no password is shown before one is generated.
  It holds initially and every method keeps it, so it holds in every reachable state.
  From it, `AlphabetNeverEmpty` shows that the alphabet always has at least 26
  characters.

The index the screen draws is `Math.round(Math.random() * n)`, where `n` is the
alphabet's length. That index lies in `0..n`, both ends included. An index equal to `n`
makes `charAt` return `""`, so that loop pass adds nothing. So the generated password
has at most the requested number of characters, not exactly that many.
- `PasswordLength` and `ShortExactlyWhenEndIsDrawn` state when the password comes out
  short.
- `EndDrawGivesShortPassword` gives a concrete case: the draws 26, 0, 1, 2 over the
  lower-case alphabet give "abc".

The code also validates less than one might expect, and the model follows it:
- Generation itself does not reject a bad length or an empty class selection. It accepts
  any length, and a negative length makes the loop run zero times.
- Only the form checks the 4..16 bound (`ValidLength`, `Submit`).
- An empty class selection cannot occur, because no handler ever clears lower case
  (`Valid`, `AlphabetNeverEmpty`).

## Model

| member | source | states |
|---|---|---|
| `Alphabets.BuildCharacterList` | App.tsx:36-54 | the four conditional appends build exactly `CharacterList(f)`: the enabled alphabets concatenated in class order |
| `Alphabets.CharacterListParts` | App.tsx:43-54 | the combined alphabet equals the upper-case, lower-case, digit and symbol alphabets, each taken only when its flag is set, in that order |
| `Alphabets.EnabledClassesInOrder` | App.tsx:43-54 | the classes in the combined alphabet are exactly the enabled ones, each once, in strictly increasing order: upper, lower, digit, symbol |
| `Alphabets.EnabledInSelects` | App.tsx:43-54 | choosing the enabled classes of a list keeps a class exactly when it is listed and enabled |
| `Alphabets.EnabledInKeepsOrder` | App.tsx:43-54 | choosing the enabled classes keeps the order of the list |
| `Alphabets.AppendOneClass` | App.tsx:43-54 | considering one more class appends its alphabet to the combined alphabet exactly when its flag is set |
| `Alphabets.CharacterListLength` | App.tsx:36-54 | the combined alphabet's length is the sum of 26 (upper), 26 (lower), 10 (digits) and 14 (symbols) over the enabled classes |
| `Alphabets.CharacterListMembers` | App.tsx:36-54 | a character is in the combined alphabet if and only if some enabled class's alphabet holds it |
| `Alphabets.JoinMembers` | App.tsx:36-54 | a character is in a concatenation of alphabets if and only if one of them holds it |
| `Alphabets.AlphabetRange` | App.tsx:38-41 | upper-case characters lie in A..Z, lower-case in a..z, digits in 0..9, and symbols in none of these ranges |
| `Alphabets.AlphabetsDisjoint` | App.tsx:38-41 | no character belongs to two of the four alphabets |
| `Alphabets.CharacterListExcludesDisabled` | App.tsx:36-54 | no character of the combined alphabet belongs to a disabled class |
| `Alphabets.LowerCaseKeepsAlphabetNonEmpty` | App.tsx:46-48 | with lower case enabled, the combined alphabet has at least 26 characters and contains every lower-case letter |
| `Passwords.CharAt` | App.tsx:67 | `charAt` yields one character exactly when the index is inside the string, that character being the one at the index, and `""` otherwise |
| `Passwords.RoundedDraws` | App.tsx:65 | the indices `Math.round(Math.random() * n)` yields lie in 0..n, so each one either picks a character or lies just past the end, where it picks none |
| `Passwords.CreatePassword` | App.tsx:62-70 | the counted loop returns `Password` of the draws it consumed, which is one per pass and none for a non-positive length; the result has at most the requested length, and every character occurs in `characters` |
| `Passwords.PasswordLength` | App.tsx:64-67 | a password has at most one character per draw, and exactly one per draw if and only if every draw is a valid index |
| `Passwords.ShortExactlyWhenEndIsDrawn` | App.tsx:65-67 | with draws in 0..n, the password is shorter than requested if and only if some draw equals the alphabet length n |
| `Passwords.PasswordPicks` | App.tsx:64-67 | when every draw is a valid index, the password has one character per draw, and the i-th character is `characters[draws[i]]` |
| `Passwords.PasswordDrawnFrom` | App.tsx:65-67 | every character of the password occurs in `characters` |
| `Passwords.PasswordAllZero` | App.tsx:64-67 | all-zero draws over a non-empty alphabet give its first character repeated once per draw |
| `Passwords.EndDrawGivesShortPassword` | App.tsx:65-67 | over the lower-case alphabet, the draws 26, 0, 1, 2 give "abc": the draw 26 adds nothing |
| `App.PasswordFromEnabledClasses` | App.tsx:43-67 | every character of a generated password lies in the alphabet of a selected class, and in no alphabet of a class that was not selected |
| `App.PasswordScreen.constructor` | App.tsx:27-33 | initial state: empty password, not generated, lower case selected, the other three classes not selected |
| `App.PasswordScreen.PressLowerCase` | App.tsx:126 | the lower-case checkbox sets its flag to true and changes nothing else |
| `App.PasswordScreen.PressUpperCase` | App.tsx:137 | the upper-case checkbox sets its flag to true and changes nothing else |
| `App.PasswordScreen.PressNumbers` | App.tsx:148 | the number checkbox sets its flag to true and changes nothing else |
| `App.PasswordScreen.PressSymbol` | App.tsx:159 | the symbol checkbox sets its flag to true and changes nothing else |
| `App.PasswordScreen.GeneratePasswordString` | App.tsx:35-60 | the password becomes `Password` of the selected classes' combined alphabet and the consumed draws, and `isPassGenerated` becomes true; the flags are unchanged; the password is at most the requested length and holds no character of an unselected class |
| `App.PasswordScreen.ResetPassword` | App.tsx:72-79 | reset restores the initial state: empty password, not generated, lower case only |
| `Schema.ValidLength` | App.tsx:19-24 | the definition of the schema's length bound, 4 <= n <= 16, on which `Submit` depends; it has no contract of its own |
| `App.PasswordScreen.Submit` | App.tsx:86-92 | the form generates a password exactly when the length is between 4 and 16, and then the password has at most the requested number of characters, hence at most 16; otherwise the state is unchanged and no draw is needed |
| `App.PasswordScreen.AlphabetNeverEmpty` | App.tsx:30-159 | in every reachable state, the selected classes' combined alphabet has at least 26 characters: lower case starts on (line 30), reset turns it back on (line 74), and the checkbox handlers only ever set flags to true (lines 126, 137, 148, 159) |

## Left out

- Random numbers: `Math.random()` and `Math.round`, which are floating point, are left out. Each loop pass takes an integer index from an oracle sequence instead. `RoundedDraws` states the range 0..n that the rounding can produce. Uniformity and bias are not modelled.
- The form library and the schema library are left out: Formik's state, `handleChange`, `handleReset`, error messages, and the string-to-number coercion `+values.passwordLenght`. Only the 4..16 bound is modelled. The length is an integer. A fractional length the schema would accept, such as 4.5, makes the loop run a rounded-up number of times; that is not modelled.
- `console.log` on submit is left out. It is output only.
- Rendering is left out: the view tree, the styles, the disabled state of the generate button, and the checkbox widget beyond its `onPress` setter.
- React state updates are modelled as immediate field assignments. React's batching of `setState` calls is not modelled.
