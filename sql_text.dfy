/** How PostgreSQL reads two pieces of SQL text the backend produces or relies
    on: the `LIKE` pattern of the image listing, and the `$n` parameter
    placeholders of a statement. These are reference definitions: the backend
    never computes them, the proofs about it are stated with them. */
module SqlText {
  import opened GoStd

  /** `s LIKE p` with `%` (any run of characters) and `_` (any one character);
      every other pattern character stands for itself. The default escape
      character is not modelled: no pattern in the backend uses it. */
  predicate Like(s: string, p: string)
    decreases |s| + |p|
  {
    if p == [] then s == []
    else if p[0] == '%' then Like(s, p[1..]) || (s != [] && Like(s[1..], p))
    else s != [] && (p[0] == '_' || p[0] == s[0]) && Like(s[1..], p[1..])
  }

  /** Text in which neither LIKE wildcard occurs. */
  predicate Literal(s: string) {
    forall i :: 0 <= i < |s| ==> s[i] != '%' && s[i] != '_'
  }

  /** `%` alone matches every string. */
  lemma {:induction false} PercentMatchesAll(s: string)
    ensures Like(s, "%")
  {
    if s != [] {
      PercentMatchesAll(s[1..]);
    }
  }

  /** A wildcard-free prefix followed by `%` matches exactly the strings that
      start with that prefix. */
  lemma {:induction false} LikePrefix(s: string, prefix: string)
    requires Literal(prefix)
    ensures Like(s, prefix + "%") <==> |prefix| <= |s| && s[..|prefix|] == prefix
  {
    if prefix == [] {
      assert prefix + "%" == "%";
      PercentMatchesAll(s);
    } else {
      assert (prefix + "%")[1..] == prefix[1..] + "%";
      if s != [] {
        LikePrefix(s[1..], prefix[1..]);
        if |prefix| <= |s| {
          assert s[..|prefix|] == [s[0]] + s[1..][..|prefix| - 1];
          assert prefix == [prefix[0]] + prefix[1..];
        }
      }
    }
  }

  /** The longest run of decimal digits at the front of `s`. */
  function DigitRun(s: string): (d: string)
    ensures |d| <= |s| && d == s[..|d|] && AllDigits(d)
    ensures |d| < |s| ==> !IsDigit(s[|d|])
  {
    if s != [] && IsDigit(s[0]) then [s[0]] + DigitRun(s[1..]) else []
  }

  /** The parameter numbers of the placeholders of a statement, in the order
      they appear: each `$` followed by decimal digits is one placeholder. */
  function Placeholders(s: string): seq<nat>
    decreases |s|
  {
    if s == [] then []
    else if s[0] == '$' then
      var d := DigitRun(s[1..]);
      if d == [] then Placeholders(s[1..]) else [DigitsValue(d)] + Placeholders(s[1 + |d|..])
    else Placeholders(s[1..])
  }

  /** The numbers `first`, `first + 1`, ..., `first + count - 1`. */
  function Consecutive(first: nat, count: nat): (r: seq<nat>)
    ensures |r| == count && forall i :: 0 <= i < count ==> r[i] == first + i
  {
    seq(count, i requires 0 <= i < count => first + i)
  }

  lemma {:induction false} DigitRunAppend(a: string, b: string)
    requires b == [] || !IsDigit(b[0])
    ensures DigitRun(a + b) == DigitRun(a)
  {
    if a != [] {
      assert (a + b)[1..] == a[1..] + b;
      DigitRunAppend(a[1..], b);
    } else {
      assert a + b == b;
    }
  }

  lemma {:induction false} DigitRunAll(a: string)
    requires AllDigits(a)
    ensures DigitRun(a) == a
  {
    if a != [] {
      DigitRunAll(a[1..]);
    }
  }

  /** Placeholders are read piecewise when the second piece cannot extend a
      number that ends the first. */
  lemma {:induction false} PlaceholdersAppend(a: string, b: string)
    requires b == [] || !IsDigit(b[0])
    ensures Placeholders(a + b) == Placeholders(a) + Placeholders(b)
    decreases |a|, 1
  {
    if a == [] {
      assert a + b == b;
    } else if a[0] != '$' || DigitRun(a[1..]) == [] {
      PlainStepAppend(a, b);
    } else {
      DollarStepAppend(a, b, DigitRun(a[1..]));
    }
  }

  /** The step of `PlaceholdersAppend` where the first character starts no
      placeholder. */
  lemma PlainStepAppend(a: string, b: string)
    requires b == [] || !IsDigit(b[0])
    requires a != [] && (a[0] != '$' || DigitRun(a[1..]) == [])
    ensures Placeholders(a + b) == Placeholders(a) + Placeholders(b)
    decreases |a|, 0
  {
    PlaceholdersAppend(a[1..], b);
    DropAppend(a, b, 1);
    if a[0] == '$' {
      DigitRunAppend(a[1..], b);
    }
  }

  /** The step of `PlaceholdersAppend` where `a` starts with the placeholder
      whose digits are `d`. */
  lemma DollarStepAppend(a: string, b: string, d: string)
    requires b == [] || !IsDigit(b[0])
    requires a != [] && a[0] == '$' && d == DigitRun(a[1..]) && d != []
    ensures Placeholders(a + b) == Placeholders(a) + Placeholders(b)
    decreases |a|, 0
  {
    var rest := a[1 + |d|..];
    PlaceholdersAppend(rest, b);
    var ab := a + b;
    DropAppend(a, b, 1);
    DigitRunAppend(a[1..], b);
    DropAppend(a, b, 1 + |d|);
    PlaceholderAtFront(a, d, rest);
    PlaceholderAtFront(ab, d, rest + b);
    AppendAssoc([DigitsValue(d)], Placeholders(rest), Placeholders(b));
  }

  lemma AppendAssoc<T>(x: seq<T>, y: seq<T>, z: seq<T>)
    ensures x + (y + z) == (x + y) + z
  {
  }

  /** Unfolding `Placeholders` at a leading `$` followed by the digits `d`. */
  lemma PlaceholderAtFront(s: string, d: string, rest: string)
    requires s != [] && s[0] == '$' && d == DigitRun(s[1..]) && d != []
    requires rest == s[1 + |d|..]
    ensures Placeholders(s) == [DigitsValue(d)] + Placeholders(rest)
  {
  }

  /** Dropping a prefix of `a` from `a + b`. */
  lemma DropAppend(a: string, b: string, k: nat)
    requires k <= |a|
    ensures (a + b)[k..] == a[k..] + b
    ensures k < |a| ==> (a + b)[k] == a[k]
  {
  }

  predicate DollarFree(s: string) {
    forall i :: 0 <= i < |s| ==> s[i] != '$'
  }

  /** Text without `$` holds no placeholder. */
  lemma {:induction false} PlaceholdersNoDollar(lit: string)
    requires DollarFree(lit)
    ensures Placeholders(lit) == []
  {
    if lit != [] {
      PlaceholdersNoDollar(lit[1..]);
    }
  }

  /** `$` followed by the numeral of `n` is read as placeholder `n`. */
  lemma PlaceholderNumeral(n: nat)
    ensures Placeholders("$" + Itoa(n)) == [n]
  {
    var s := "$" + Itoa(n);
    DigitRunAll(Itoa(n));
    assert s[1..] == Itoa(n);
    assert s[1 + |Itoa(n)|..] == [];
  }
}
