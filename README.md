# QuickPassGen password generator, modelled in Dafny

QuickPassGen is a small iOS app that generates a password from a length and
two switches, "include symbols" and "numbers only". This project models its
core, the `PasswordGenerator` value type in `QuickPassGen/ContentView.swift`,
and the part of the `ContentView` screen state that feeds it:

- `alphabets.dfy` (module `Alphabets`): the three fixed ASCII alphabets
  (`lettersAndNumbers`, `numbers`, `symbols`) and the choice among them
  (`Select`). Letters, digits and symbols are also described by character
  class, independently of the strings (the symbols as ASCII punctuation
  minus six characters), and the lemmas tie the two together.
- `generation.dfy` (module `Generation`): `PasswordGenerator` as a datatype
  with its `Generate` method. The method is a `while` loop that appends one
  character per pass, as `generate()`'s `for` loop does. The standard library's
  `randomElement()` becomes `RandomElement`, which picks an arbitrary valid
  index. `IsPossibleOutput` describes every password a call may return, and
  the lemmas state what such a password can and cannot contain.
- `screen.dfy` (module `Screen`): the `@State` fields of `ContentView` as a
  class. It has the two toggle handlers, which clear each other's flag, and
  the generate button.

`generate()` is run on a non-negative length only. In Swift, forming the
range `0..<length` traps when `length` is negative, so `Generate` requires
`length >= 0`; the app's slider keeps the length within 1...20.

## Model

| member | source | states |
|---|---|---|
| `Alphabets.NumbersExactlyDigits` | QuickPassGen/ContentView.swift:18 | the `numbers` string holds exactly the characters '0'..'9' |
| `Alphabets.LettersAndNumbersExactlyAlphanumeric` | QuickPassGen/ContentView.swift:17 | the `lettersAndNumbers` string holds exactly the ASCII letters and digits |
| `Alphabets.SymbolsExactlySymbolClass` | QuickPassGen/ContentView.swift:19 | the `symbols` string holds exactly the ASCII punctuation characters other than `"`, `'`, `+`, `-`, `\` and `_` |
| `Alphabets.SymbolsNotAlphanumeric` | QuickPassGen/ContentView.swift:19 | no character of `symbols` is a letter or a digit |
| `Alphabets.NumbersOnlyAlphabet` | QuickPassGen/ContentView.swift:18-22 | with `numbersOnly` set, the alphabet is exactly `"0123456789"` (10 characters, only digits), whatever `includeSymbols` is |
| `Alphabets.PlainAlphabet` | QuickPassGen/ContentView.swift:17-22 | with both flags off, the alphabet is the 62 letters and digits and nothing else |
| `Alphabets.SymbolAlphabet` | QuickPassGen/ContentView.swift:17-22 | with `includeSymbols` on and `numbersOnly` off, the alphabet is the 62 alphanumerics followed by the 26 symbols, 88 characters, and a character is in it exactly when it is a letter, a digit or in the symbol class |
| `Alphabets.SymbolsIffEnabled` | QuickPassGen/ContentView.swift:21-22 | the alphabet contains a non-alphanumeric character if and only if `includeSymbols && !numbersOnly`; then every symbol is in it, otherwise every character is alphanumeric |
| `Alphabets.AlphabetNonEmpty` | QuickPassGen/ContentView.swift:21-22 | every selectable alphabet contains all ten digits, so it has at least 10 characters |
| `Generation.RandomElement` | QuickPassGen/ContentView.swift:26 | `randomElement()` returns nothing exactly when the collection is empty, and otherwise one of its elements |
| `Generation.PasswordGenerator.Generate` | QuickPassGen/ContentView.swift:15-31 | for `length >= 0` the password has exactly `length` characters, each from the selected alphabet; the `if let` never skips a pass |
| `Generation.ZeroLengthIsEmpty` | QuickPassGen/ContentView.swift:24-30 | with length 0 the password is the empty string, for every flag combination |
| `Generation.NumbersOnlyGivesDigits` | QuickPassGen/ContentView.swift:21-27 | with `numbersOnly` set every character of the password is a digit, whatever `includeSymbols` is |
| `Generation.NoSymbolUnlessEnabled` | QuickPassGen/ContentView.swift:22-27 | unless `includeSymbols && !numbersOnly`, every character of the password is a letter or a digit |
| `Generation.SymbolPasswordCharacters` | QuickPassGen/ContentView.swift:22-27 | with symbols enabled, every character of the password is a letter, a digit or in the 26-character symbol class |
| `Generation.AllDigitPasswordsPossible` | QuickPassGen/ContentView.swift:24-29 | there is no minimum-composition rule: a digits-only string of the right length is a possible output under every flag combination |
| `Screen.ContentView.constructor` | QuickPassGen/ContentView.swift:37-40 | the screen starts with length 8, no password, symbols on and numbers-only off, which satisfies the invariant |
| `Screen.ContentView.SetIncludeSymbols` | QuickPassGen/ContentView.swift:73-84 | the symbols toggle takes the new value; turning it on clears numbers-only; the two flags are never both on afterwards |
| `Screen.ContentView.SetNumbersOnly` | QuickPassGen/ContentView.swift:86-98 | the numbers-only toggle takes the new value; turning it on clears the symbols toggle; the two flags are never both on afterwards |
| `Screen.ContentView.GeneratePressed` | QuickPassGen/ContentView.swift:101-103 | the displayed password is replaced by a possible output of the generator that the computed property `passwordGenerator` (lines 42-44) builds from the current settings, `passwordLength` characters long, and alphanumeric only when symbols are off |
| `Screen.SymbolsFollowToggle` | QuickPassGen/ContentView.swift:21-22 | when the two flags are not both on, the alphabet has symbols exactly when `includeSymbols` is on |

## Left out

- Uniformity of `randomElement()`: a probability distribution cannot be stated here; `RandomElement` only promises a valid index.
- Negative lengths: Swift traps when forming `0..<length`; the model makes `length >= 0` a precondition of `Generate` instead of modelling the trap.
- Swift's `Int` width: lengths are unbounded integers; the app's lengths are at most 20, far below any overflow.
- The slider (line 63) and its `Double` value with the `Int(...)` conversion: floating-point UI state. The model keeps `passwordLength` as an integer in 1...20 and has no operation that moves it.
- SwiftUI layout, fonts, colours and previews (lines 46-136): presentation only.
- Clipboard writes through `UIPasteboard` (lines 60, 114): platform I/O.
- `NSLocalizedString` and `String(format:)` labels (lines 66, 74, 87, 104, 116): localisation library calls.
