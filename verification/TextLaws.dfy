/**
 What the string primitives of module `Text` do, said of the texts themselves.
 */
module TextLaws {
  import opened Text

  lemma Associate<T>(a: seq<T>, b: seq<T>, c: seq<T>)
    ensures a + (b + c) == a + b + c
  {
  }

  // ---- characters -------------------------------------------------------------------------------

  /** `isspace` in the "C" locale: the codes 9 to 13 and 32. */
  lemma SpaceCodes(c: char)
    ensures IsSpace(c) <==> 9 <= c as int <= 13 || c as int == 32
  {
  }

  /** The same letter, in either case. */
  predicate SameLetter(c: char, d: char) {
    || c == d
    || (65 <= c as int <= 90 && d as int == c as int + 32)
    || (65 <= d as int <= 90 && c as int == d as int + 32)
  }

  lemma SameChar(c: char, d: char)
    ensures LowerChar(c) == LowerChar(d) <==> SameLetter(c, d)
  {
  }

  /** Two texts are equal in lower case exactly when they have the same letters. */
  lemma SameInLower(s: string, t: string)
    ensures Lower(s) == Lower(t) <==> |s| == |t| && forall i :: 0 <= i < |s| ==> SameLetter(s[i], t[i])
  {
    hide LowerChar, SameLetter;
    var a, b := Lower(s), Lower(t);
    hide Lower;
    if |s| == |t| {
      forall i | 0 <= i < |s| ensures a[i] == b[i] <==> SameLetter(s[i], t[i]) {
        SameChar(s[i], t[i]);
      }
    }
  }

  lemma LowerHasNoUpper(s: string)
    ensures forall i :: 0 <= i < |s| ==> SameLetter(Lower(s)[i], s[i]) && !(65 <= Lower(s)[i] as int <= 90)
  {
  }

  /** `starts_with_ci` */
  lemma StartsWith(value: string, prefix: string)
    ensures StartsWithCi(value, prefix)
            <==> |prefix| <= |value| && forall i :: 0 <= i < |prefix| ==> SameLetter(value[i], prefix[i])
  {
    if |prefix| <= |value| {
      SameInLower(value[..|prefix|], prefix);
    }
  }

  // ---- trimming -----------------------------------------------------------------------------------

  predicate Spaces(s: string) {
    forall i :: 0 <= i < |s| ==> IsSpace(s[i])
  }

  /** Not empty, and no white space at either end. */
  predicate Tight(s: string) {
    s != "" && !IsSpace(s[0]) && !IsSpace(s[|s| - 1])
  }

  lemma {:induction false} SkipOf(a: string, t: string)
    requires Spaces(a) && (t == "" || !IsSpace(t[0]))
    ensures SkipSpaces(a + t) == t
  {
    if a == "" {
      assert a + t == t;
    } else {
      SkipOf(a[1..], t);
      assert (a + t)[1..] == a[1..] + t;
    }
  }

  lemma {:induction false} TrimEndOf(t: string, b: string)
    requires Spaces(b) && (t == "" || !IsSpace(t[|t| - 1]))
    ensures TrimEnd(t + b) == t
  {
    if b == "" {
      assert t + b == t;
    } else {
      var n := |b| - 1;
      TrimEndOf(t, b[..n]);
      assert (t + b)[..|t + b| - 1] == t + b[..n];
    }
  }

  /** Trimming takes the white space off both ends and nothing else. */
  lemma TrimOf(a: string, t: string, b: string)
    requires Spaces(a) && Spaces(b) && Tight(t)
    ensures Trim(a + t + b) == t
  {
    assert a + t + b == a + (t + b);
    SkipOf(a, t + b);
    TrimEndOf(t, b);
  }

  lemma TrimOfSpaces(a: string)
    requires Spaces(a)
    ensures Trim(a) == ""
  {
    SkipOf(a, "");
    assert a + "" == a;
  }

  // ---- numbers ------------------------------------------------------------------------------------

  function Pow10(n: nat): nat {
    if n == 0 then 1 else 10 * Pow10(n - 1)
  }

  predicate Digits(s: string) {
    forall i :: 0 <= i < |s| ==> IsDigit(s[i])
  }

  lemma Shift(v: nat, p: nat, w: nat, d: nat)
    ensures 10 * (v * p + w) + d == v * (10 * p) + (10 * w + d)
  {
  }

  /** Digits count by their place. */
  lemma {:induction false} ValueByPlace(a: string, b: string)
    requires Digits(a) && Digits(b)
    ensures Digits(a + b) && Value(a + b) == Value(a) * Pow10(|b|) + Value(b)
  {
    if b == "" {
      assert a + b == a;
      assert Pow10(0) == 1;
    } else {
      var n := |b| - 1;
      ValueByPlace(a, b[..n]);
      var all := a + b;
      assert all[..|all| - 1] == a + b[..n] && all[|all| - 1] == b[n];
      assert Value(all) == 10 * Value(a + b[..n]) + DigitValue(b[n]);
      assert Value(b) == 10 * Value(b[..n]) + DigitValue(b[n]);
      assert Pow10(|b|) == 10 * Pow10(n);
      hide Value, Pow10;
      Shift(Value(a), Pow10(n), Value(b[..n]), DigitValue(b[n]));
    }
  }

  lemma ValueOfOne(d: nat)
    requires d < 10
    ensures Value([(48 + d) as char]) == d
  {
    assert [(48 + d) as char][..0] == "";
  }

  lemma {:induction false} RunOf(digits: string, rest: string)
    requires Digits(digits) && (rest == "" || !IsDigit(rest[0]))
    ensures DigitRun(digits + rest) == |digits|
  {
    if digits == "" {
      assert digits + rest == rest;
    } else {
      RunOf(digits[1..], rest);
      assert (digits + rest)[1..] == digits[1..] + rest;
    }
  }

  predicate Sign(s: string) {
    s == "" || s == "+" || s == "-"
  }

  /** What `std::stoi` makes of a text from its sign on. */
  lemma StoiTail(sign: string, digits: string, rest: string)
    requires Sign(sign) && digits != "" && Digits(digits) && (rest == "" || !IsDigit(rest[0]))
    ensures
      var t := sign + (digits + rest);
      var signed := t != "" && (t[0] == '-' || t[0] == '+');
      && t != "" && !IsSpace(t[0]) && (signed <==> sign != "") && (signed ==> (t[0] == '-' <==> sign == "-"))
      && (if signed then t[1..] else t) == digits + rest
  {
    var u := digits + rest;
    assert u[0] == digits[0] && IsDigit(digits[0]);
    if sign == "" {
      assert sign + u == u;
    } else {
      assert (sign + u)[0] == sign[0] && (sign + u)[1..] == u;
    }
  }

  /** `std::stoi` on white space, a sign, digits and anything else: the number, if it is an int. */
  lemma StoiOf(spaces: string, sign: string, digits: string, rest: string)
    requires Spaces(spaces) && Sign(sign) && digits != "" && Digits(digits) && (rest == "" || !IsDigit(rest[0]))
    ensures
      var n: int := if sign == "-" then -(Value(digits) as int) else Value(digits);
      Stoi(spaces + (sign + (digits + rest))) == if -2147483648 <= n <= 2147483647 then Some(n) else None
  {
    var t, u := sign + (digits + rest), digits + rest;
    StoiTail(sign, digits, rest);
    SkipOf(spaces, t);
    RunOf(digits, rest);
    assert u[..|digits|] == digits;
    hide SkipSpaces, DigitRun, Value;
  }

  /** Without digits there is no number. */
  lemma StoiOfNothing(spaces: string, sign: string, rest: string)
    requires Spaces(spaces) && Sign(sign) && (rest == "" || !IsDigit(rest[0]))
    requires sign == "" && rest != "" ==> !IsSpace(rest[0]) && rest[0] != '+' && rest[0] != '-'
    ensures Stoi(spaces + sign + rest) == None
  {
    var t := sign + rest;
    assert spaces + sign + rest == spaces + t;
    assert sign != "" ==> t[0] == sign[0];
    SkipOf(spaces, t);
    assert sign != "" ==> t[1..] == rest;
    assert sign == "" ==> t == rest;
  }
}
