/** Tool names derived from class names: Laravel's `class_basename` and the PascalCase to
    snake_case rule `strtolower(preg_replace('/(?<!^)[A-Z]/', '_$0', $name))`. */
module Naming {

  predicate IsUpper(c: char) {
    'A' <= c <= 'Z'
  }

  predicate IsLowerOrDigitOrUnderscore(c: char) {
    ('a' <= c <= 'z') || ('0' <= c <= '9') || c == '_'
  }

  /** The characters a PHP class name is spelled in here: ASCII letters, digits and `_`. */
  predicate IsWordChar(c: char) {
    IsUpper(c) || IsLowerOrDigitOrUnderscore(c)
  }

  predicate NoUpper(s: string) {
    forall i :: 0 <= i < |s| ==> !IsUpper(s[i])
  }

  /** The number of ASCII upper-case letters in `s`. */
  function CountUpper(s: string): nat {
    if s == [] then 0 else (if IsUpper(s[0]) then 1 else 0) + CountUpper(s[1..])
  }

  /** The upper-case letters the regular expression matches: all but one at index 0. */
  function NonInitialUpper(s: string): nat {
    if s == [] then 0 else CountUpper(s[1..])
  }

  /** `strtolower` on one character: only ASCII letters change. */
  function ToLower(c: char): (r: char)
    ensures !IsUpper(r)
    ensures IsUpper(c) ==> r as int == c as int + 32
    ensures !IsUpper(c) ==> r == c
  {
    if IsUpper(c) then (c as int + 32) as char else c
  }

  /** `strtolower($s)`: every character lowered in place, nothing added or removed. */
  function Lowercase(s: string): (r: string)
    ensures |r| == |s|
  {
    if s == [] then [] else [ToLower(s[0])] + Lowercase(s[1..])
  }

  /** `strtolower` lowers every character in place and leaves no upper-case letter. */
  lemma {:induction false} LowercaseLowers(s: string)
    ensures forall i :: 0 <= i < |s| ==> Lowercase(s)[i] == ToLower(s[i])
    ensures NoUpper(Lowercase(s))
  {
    if s != [] {
      LowercaseLowers(s[1..]);
    }
  }

  /** The replacement `_$0` applied to every upper-case letter of `s`. */
  function UnderscoreUppers(s: string): string {
    if s == [] then []
    else (if IsUpper(s[0]) then ['_', s[0]] else [s[0]]) + UnderscoreUppers(s[1..])
  }

  /** `preg_replace('/(?<!^)[A-Z]/', '_$0', $s)`: the look-behind `(?<!^)` spares index 0. */
  function InsertUnderscores(s: string): string {
    if s == [] then [] else [s[0]] + UnderscoreUppers(s[1..])
  }

  /** The derived tool name of a class basename. */
  function SnakeCase(s: string): string {
    Lowercase(InsertUnderscores(s))
  }

  /** A one-pass reading of the rule: each character is lowered, with `_` in front of it when it
      is an upper-case letter after index 0. */
  function Piece(c: char, initial: bool): string {
    if !initial && IsUpper(c) then ['_', ToLower(c)] else [ToLower(c)]
  }

  function SnakeCaseFrom(s: string, initial: bool): string {
    if s == [] then [] else Piece(s[0], initial) + SnakeCaseFrom(s[1..], false)
  }

  lemma {:induction false} UnderscoreUppersLength(s: string)
    ensures |UnderscoreUppers(s)| == |s| + CountUpper(s)
  {
    if s != [] {
      UnderscoreUppersLength(s[1..]);
    }
  }

  lemma {:induction false} LowercaseAppend(a: string, b: string)
    ensures Lowercase(a + b) == Lowercase(a) + Lowercase(b)
  {
    if a == [] {
      assert a + b == b;
    } else {
      assert (a + b)[1..] == a[1..] + b;
      LowercaseAppend(a[1..], b);
    }
  }

  lemma {:induction false} UnderscoreUppersOnePass(s: string)
    ensures Lowercase(UnderscoreUppers(s)) == SnakeCaseFrom(s, false)
  {
    if s != [] {
      var head := if IsUpper(s[0]) then ['_', s[0]] else [s[0]];
      LowercaseAppend(head, UnderscoreUppers(s[1..]));
      UnderscoreUppersOnePass(s[1..]);
      assert Lowercase(head) == Piece(s[0], false);
    }
  }

  /** The two-pass rule of the source agrees with the one-pass reading on every input. */
  lemma SnakeCaseIsPiecewise(s: string)
    ensures SnakeCase(s) == SnakeCaseFrom(s, true)
  {
    if s != [] {
      LowercaseAppend([s[0]], UnderscoreUppers(s[1..]));
      UnderscoreUppersOnePass(s[1..]);
      assert Lowercase([s[0]]) == Piece(s[0], true);
    }
  }

  /** The output is the input plus one `_` per upper-case letter after index 0. */
  lemma SnakeCaseLength(s: string)
    ensures |SnakeCase(s)| == |s| + NonInitialUpper(s)
  {
    if s != [] {
      UnderscoreUppersLength(s[1..]);
    }
  }

  /** No upper-case letter survives. */
  lemma SnakeCaseNoUpper(s: string)
    ensures NoUpper(SnakeCase(s))
  {
    LowercaseLowers(InsertUnderscores(s));
  }

  lemma {:induction false} UnderscoreUppersNoUpper(s: string)
    requires NoUpper(s)
    ensures UnderscoreUppers(s) == s
  {
    if s != [] {
      assert !IsUpper(s[0]);
      UnderscoreUppersNoUpper(s[1..]);
    }
  }

  lemma {:induction false} LowercaseNoUpper(s: string)
    requires NoUpper(s)
    ensures Lowercase(s) == s
  {
    if s != [] {
      assert !IsUpper(s[0]);
      LowercaseNoUpper(s[1..]);
    }
  }

  /** A name already in snake case is left alone, so deriving twice is deriving once. */
  lemma SnakeCaseIdempotent(s: string)
    ensures SnakeCase(SnakeCase(s)) == SnakeCase(s)
  {
    var t := SnakeCase(s);
    SnakeCaseNoUpper(s);
    if t != [] {
      UnderscoreUppersNoUpper(t[1..]);
      assert InsertUnderscores(t) == t;
    }
    LowercaseNoUpper(t);
  }

  lemma {:induction false} UnderscoreUppersWordChars(s: string)
    requires forall i :: 0 <= i < |s| ==> IsWordChar(s[i])
    ensures forall i :: 0 <= i < |UnderscoreUppers(s)| ==> IsWordChar(UnderscoreUppers(s)[i])
  {
    if s != [] {
      UnderscoreUppersWordChars(s[1..]);
    }
  }

  /** A class basename spelled in `[A-Za-z0-9_]` yields a name spelled in `[a-z0-9_]`. */
  lemma SnakeCaseCharset(s: string)
    requires forall i :: 0 <= i < |s| ==> IsWordChar(s[i])
    ensures forall i :: 0 <= i < |SnakeCase(s)| ==> IsLowerOrDigitOrUnderscore(SnakeCase(s)[i])
  {
    if s != [] {
      UnderscoreUppersWordChars(s[1..]);
      var t := InsertUnderscores(s);
      assert forall i :: 0 <= i < |t| ==> IsWordChar(t[i]);
      LowercaseLowers(t);
    }
  }

  lemma {:induction false} UnderscoreUppersAppend(a: string, b: string)
    ensures UnderscoreUppers(a + b) == UnderscoreUppers(a) + UnderscoreUppers(b)
  {
    if a == [] {
      assert a + b == b;
    } else {
      assert (a + b)[1..] == a[1..] + b;
      UnderscoreUppersAppend(a[1..], b);
    }
  }

  lemma InsertUnderscoresJoin(a: string, b: string)
    requires a != [] && b != [] && IsUpper(b[0])
    ensures InsertUnderscores(a + b) == InsertUnderscores(a) + "_" + InsertUnderscores(b)
  {
    assert (a + b)[1..] == a[1..] + b;
    UnderscoreUppersAppend(a[1..], b);
  }

  /** Joining two words, the second capitalised, joins their names with `_`. */
  lemma SnakeCaseJoin(a: string, b: string)
    requires a != [] && b != [] && IsUpper(b[0])
    ensures SnakeCase(a + b) == SnakeCase(a) + "_" + SnakeCase(b)
  {
    var ia, ib := InsertUnderscores(a), InsertUnderscores(b);
    InsertUnderscoresJoin(a, b);
    LowercaseAppend(ia + "_", ib);
    LowercaseAppend(ia, "_");
  }

  /** A capitalised word with no other capital only has its first letter lowered. */
  lemma SnakeCaseOneWord(w: string)
    requires w != [] && NoUpper(w[1..])
    ensures SnakeCase(w) == [ToLower(w[0])] + w[1..]
  {
    UnderscoreUppersNoUpper(w[1..]);
    LowercaseNoUpper(w[1..]);
    LowercaseAppend([w[0]], w[1..]);
  }

  /** Two capitalised words: each initial is lowered and the second gets a `_` in front. */
  lemma SnakeCaseTwoWords(a: string, b: string)
    requires a != [] && b != [] && IsUpper(b[0]) && NoUpper(a[1..]) && NoUpper(b[1..])
    ensures SnakeCase(a + b) == [ToLower(a[0])] + a[1..] + "_" + [ToLower(b[0])] + b[1..]
  {
    SnakeCaseOneWord(a);
    SnakeCaseOneWord(b);
    SnakeCaseJoin(a, b);
  }

  lemma WeatherExample(s: string)
    requires s == "Weather"
    ensures SnakeCase(s) == "weather"
  {
    SnakeCaseOneWord(s);
  }

  lemma WeatherLookupExample(s: string)
    requires s == "WeatherLookup"
    ensures SnakeCase(s) == "weather_lookup"
  {
    WeatherLookupSpelling();
    WeatherExample("Weather");
    OneWord("Lookup", "lookup");
    SnakeCaseJoin("Weather", "Lookup");
  }

  lemma WeatherLookupSpelling()
    ensures "WeatherLookup" == "Weather" + "Lookup"
    ensures "weather_lookup" == "weather" + "_" + "lookup"
  {
  }

  lemma HttpFetcherExample(s: string)
    requires s == "HttpFetcher"
    ensures SnakeCase(s) == "http_fetcher"
  {
    HttpFetcherSpelling();
    OneWord("Http", "http");
    OneWord("Fetcher", "fetcher");
    SnakeCaseJoin("Http", "Fetcher");
  }

  lemma HttpFetcherSpelling()
    ensures "HttpFetcher" == "Http" + "Fetcher"
    ensures "http_fetcher" == "http" + "_" + "fetcher"
  {
  }

  /** Both leading capitals count: only index 0 is spared, so `ABTest` is not `ab_test`. */
  lemma ABTestExample(s: string)
    requires s == "ABTest"
    ensures SnakeCase(s) == "a_b_test"
  {
    ABTestSpelling();
    OneWord("A", "a");
    OneWord("B", "b");
    OneWord("Test", "test");
    SnakeCaseJoin("B", "Test");
    SnakeCaseJoin("A", "BTest");
  }

  lemma ABTestSpelling()
    ensures "ABTest" == "A" + "BTest" && "BTest" == "B" + "Test"
    ensures "a_b_test" == "a" + "_" + "b_test" && "b_test" == "b" + "_" + "test"
  {
  }

  /** A capitalised word with no other capital, and its name. */
  lemma OneWord(w: string, name: string)
    requires w != [] && NoUpper(w[1..]) && name == [ToLower(w[0])] + w[1..]
    ensures SnakeCase(w) == name
  {
    SnakeCaseOneWord(w);
  }

  /** `class_basename($class)`: the part after the last namespace separator `\`. */
  function ClassBasename(cls: string): (r: string)
    ensures '\\' !in r
    ensures |r| <= |cls| && r == cls[|cls| - |r|..]
    ensures '\\' !in cls ==> r == cls
  {
    if cls == [] then []
    else if cls[|cls| - 1] == '\\' then []
    else ClassBasename(cls[..|cls| - 1]) + [cls[|cls| - 1]]
  }

  /** The basename of a namespaced class is the part after the separator, whatever the
      namespace holds. */
  lemma {:induction false} ClassBasenameAfterSeparator(ns: string, base: string)
    requires base != [] && '\\' !in base
    ensures ClassBasename(ns + "\\" + base) == base
    decreases |base|
  {
    var cls := ns + "\\" + base;
    var init := base[..|base| - 1];
    assert cls[..|cls| - 1] == ns + "\\" + init;
    assert cls[|cls| - 1] == base[|base| - 1];
    if init != [] {
      ClassBasenameAfterSeparator(ns, init);
    } else {
      assert (ns + "\\")[|ns|] == '\\';
    }
    assert base == init + [base[|base| - 1]];
  }
}
