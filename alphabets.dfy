/** The three fixed ASCII alphabets of the password generator and the choice
    among them that two flags make (ContentView.swift, lines 17-22). */
module Alphabets {

  /** `generate()`'s local `lettersAndNumbers`: lower case, upper case, then digits. */
  const LettersAndNumbers: string := "abcdefghijklmnopqrstuvwxyzABCDEFGHIJKLMNOPQRSTUVWXYZ0123456789"
  /** `generate()`'s local `numbers`. */
  const Numbers: string := "0123456789"
  /** `generate()`'s local `symbols`: 26 printable ASCII punctuation characters. */
  const Symbols: string := "!@#$%^&*(){}[]=<>,.?/:;~`|"

  // The three runs that make up LettersAndNumbers, used only in proofs.
  const Lowercase: string := "abcdefghijklmnopqrstuvwxyz"
  const Uppercase: string := "ABCDEFGHIJKLMNOPQRSTUVWXYZ"

  // Character classes defined independently of the strings above.
  predicate IsDigit(c: char) { '0' <= c <= '9' }
  predicate IsLetter(c: char) { 'a' <= c <= 'z' || 'A' <= c <= 'Z' }
  predicate IsAlphanumeric(c: char) { IsLetter(c) || IsDigit(c) }

  /** The 32 ASCII punctuation characters: the printable ASCII characters
      that are neither letters, digits nor the space. */
  predicate IsAsciiPunctuation(c: char)
  {
    '!' <= c <= '/' || ':' <= c <= '@' || '[' <= c <= '`' || '{' <= c <= '~'
  }

  /** The generator's symbols: ASCII punctuation except the double quote,
      the apostrophe, plus, minus, backslash and underscore. */
  predicate IsSymbol(c: char)
  {
    IsAsciiPunctuation(c) &&
    c != '"' && c != '\'' && c != '+' && c != '-' && c != '\\' && c != '_'
  }

  /** The alphabet `generate()` draws from: `numbersOnly` picks the digits,
      otherwise the alphanumerics, with the symbols appended only when
      `includeSymbols` is set and `numbersOnly` is not. */
  function Select(includeSymbols: bool, numbersOnly: bool): (alphabet: string)
  {
    var baseCharacters := if numbersOnly then Numbers else LettersAndNumbers;
    if includeSymbols && !numbersOnly then baseCharacters + Symbols else baseCharacters
  }

  lemma LettersAndNumbersRuns()
    ensures LettersAndNumbers == Lowercase + Uppercase + Numbers
  {
  }

  lemma NumbersExactlyDigits(c: char)
    ensures c in Numbers <==> IsDigit(c)
  {
  }

  lemma LowercaseExactly(c: char)
    ensures c in Lowercase <==> 'a' <= c <= 'z'
  {
  }

  lemma UppercaseExactly(c: char)
    ensures c in Uppercase <==> 'A' <= c <= 'Z'
  {
  }

  /** The 62-character alphabet holds exactly the ASCII letters and digits. */
  lemma LettersAndNumbersExactlyAlphanumeric(c: char)
    ensures c in LettersAndNumbers <==> IsAlphanumeric(c)
  {
    LettersAndNumbersRuns();
    LowercaseExactly(c);
    UppercaseExactly(c);
    NumbersExactlyDigits(c);
  }

  /** The 26-character symbol string holds exactly the characters of the
      symbol class. */
  lemma SymbolsExactlySymbolClass(c: char)
    ensures c in Symbols <==> IsSymbol(c)
  {
  }

  /** No symbol is a letter or a digit, so symbols are told apart from the
      alphanumerics by character class alone. */
  lemma SymbolsNotAlphanumeric(c: char)
    requires c in Symbols
    ensures !IsAlphanumeric(c)
  {
  }

  /** `numbersOnly` takes precedence: the alphabet is the ten digits,
      whatever `includeSymbols` says. */
  lemma NumbersOnlyAlphabet(includeSymbols: bool, c: char)
    ensures Select(includeSymbols, true) == Numbers && |Numbers| == 10
    ensures c in Select(includeSymbols, true) <==> IsDigit(c)
  {
    NumbersExactlyDigits(c);
  }

  /** With both flags off the alphabet is exactly the 62 letters and digits. */
  lemma PlainAlphabet(c: char)
    ensures Select(false, false) == LettersAndNumbers && |LettersAndNumbers| == 62
    ensures c in Select(false, false) <==> IsAlphanumeric(c)
  {
    LettersAndNumbersExactlyAlphanumeric(c);
  }

  /** With symbols on and numbers-only off the alphabet is the 62
      alphanumerics followed by the 26 symbols, 88 characters. */
  lemma SymbolAlphabet(c: char)
    ensures Select(true, false) == LettersAndNumbers + Symbols
    ensures |Select(true, false)| == 88
    ensures c in Select(true, false) <==> IsAlphanumeric(c) || IsSymbol(c)
  {
    LettersAndNumbersExactlyAlphanumeric(c);
    SymbolsExactlySymbolClass(c);
  }

  /** Symbols are selectable if and only if `includeSymbols && !numbersOnly`:
      in that case every symbol is in the alphabet, otherwise every character
      of the alphabet is a letter or a digit. */
  lemma SymbolsIffEnabled(includeSymbols: bool, numbersOnly: bool)
    ensures includeSymbols && !numbersOnly ==>
              forall c :: c in Symbols ==> c in Select(includeSymbols, numbersOnly)
    ensures !(includeSymbols && !numbersOnly) ==>
              forall c :: c in Select(includeSymbols, numbersOnly) ==> IsAlphanumeric(c)
    ensures (exists c :: c in Select(includeSymbols, numbersOnly) && !IsAlphanumeric(c))
              <==> includeSymbols && !numbersOnly
  {
    var a := Select(includeSymbols, numbersOnly);
    if includeSymbols && !numbersOnly {
      assert Symbols[0] in a;
      SymbolsNotAlphanumeric(Symbols[0]);
    } else {
      forall c | c in a ensures IsAlphanumeric(c) {
        if numbersOnly {
          NumbersExactlyDigits(c);
        } else {
          LettersAndNumbersExactlyAlphanumeric(c);
        }
      }
    }
  }

  /** Every selectable alphabet holds at least the ten digits, so a draw
      from it never comes back empty. */
  lemma AlphabetNonEmpty(includeSymbols: bool, numbersOnly: bool)
    ensures |Select(includeSymbols, numbersOnly)| >= 10
    ensures forall c :: IsDigit(c) ==> c in Select(includeSymbols, numbersOnly)
  {
    forall c | IsDigit(c) ensures c in Select(includeSymbols, numbersOnly) {
      NumbersExactlyDigits(c);
      LettersAndNumbersExactlyAlphanumeric(c);
    }
  }
}
