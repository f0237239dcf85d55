/**
 * The sample app's adapter, MyCardStackAdapter. It extends the Java
 * CardStackAdapter and changes two things that matter to the deck: its
 * getAnimatorForView can use "reverse click" targets, chosen by a stored
 * preference, and its settings card writes integer preferences back after
 * validating the text typed into them.
 *
 * The preference that turns reverse click on is a parameter here. The adapter
 * passes `AnimatorHook(reverseClick)` as the `animatorFor` argument of the
 * Java adapter's onClick and onTouch. The preference store is a map from key
 * to integer that updatePrefsIfRequired returns updated.
 */
module Sample {
  import opened Wrappers
  import Geometry
  import Deck
  import JavaInt

  // ---------------------------------------------------------------------------
  // getAnimatorForView
  // ---------------------------------------------------------------------------

  /**
   * The reverse-click target of card `current` when card `selected` was clicked.
   * Cards after the selected one drop to the collapsed stack. The selected card
   * and the cards before it pile up at the top, `cardGapBottom` apart.
   */
  function ReverseClickTarget(m: Geometry.Metrics, offsetTop: int, current: int, selected: int): real
  {
    if current > selected then offsetTop as real + Geometry.FinalY(m, current)
    else offsetTop as real + Geometry.OriginalY(m, 0) + current as real * m.cardGapBottom
  }

  /** The overridden getAnimatorForView: reverse-click targets when the preference is on. */
  function AnimatorTarget(reverseClick: bool, m: Geometry.Metrics, offsetTop: int, current: int, selected: int): real
  {
    if reverseClick then ReverseClickTarget(m, offsetTop, current, selected)
    else Deck.BaseTarget(m, offsetTop, current, selected)
  }

  /** The override as the hook the Java adapter's onClick calls for every card. */
  function AnimatorHook(reverseClick: bool): Deck.Hook
  {
    (m: Geometry.Metrics, offsetTop: int, current: int, selected: int) =>
      AnimatorTarget(reverseClick, m, offsetTop, current, selected)
  }

  /** Two cards on the same side of the selection are `cardGapBottom` apart per position between them. */
  lemma ReverseClickSpacing(m: Geometry.Metrics, offsetTop: int, selected: int, i: int, j: int)
    requires i <= j <= selected || selected < i <= j
    ensures ReverseClickTarget(m, offsetTop, j, selected) - ReverseClickTarget(m, offsetTop, i, selected)
            == (j - i) as real * m.cardGapBottom
  {
    if selected < i {
      Geometry.FinalYSpacing(m, i, j);
    } else {
      calc {
        ReverseClickTarget(m, offsetTop, j, selected) - ReverseClickTarget(m, offsetTop, i, selected);
        j as real * m.cardGapBottom - i as real * m.cardGapBottom;
        (j as real - i as real) * m.cardGapBottom;
      }
    }
  }

  /** With a positive bottom gap, cards on the same side of the selection stay in position order. */
  lemma ReverseClickOrdered(m: Geometry.Metrics, offsetTop: int, selected: int, i: int, j: int)
    requires 0.0 < m.cardGapBottom
    requires i < j <= selected || selected < i < j
    ensures ReverseClickTarget(m, offsetTop, i, selected) < ReverseClickTarget(m, offsetTop, j, selected)
  {
    ReverseClickSpacing(m, offsetTop, selected, i, j);
    assert 0.0 < (j - i) as real * m.cardGapBottom;
  }

  /** After the selected card, reverse click sends every card where the library would. */
  lemma ReverseClickAgreesAfterSelection(m: Geometry.Metrics, offsetTop: int, current: int, selected: int)
    requires selected < current
    ensures AnimatorTarget(true, m, offsetTop, current, selected) == Deck.BaseTarget(m, offsetTop, current, selected)
  {
  }

  /**
   * The selected card lands where the library puts it exactly when it is card 0
   * or the bottom gap is zero; otherwise it sits `selected * cardGapBottom` lower.
   */
  lemma ReverseClickSelectedCard(m: Geometry.Metrics, offsetTop: int, selected: int)
    ensures AnimatorTarget(true, m, offsetTop, selected, selected) - Deck.BaseTarget(m, offsetTop, selected, selected)
            == selected as real * m.cardGapBottom
    ensures AnimatorTarget(true, m, offsetTop, selected, selected) == Deck.BaseTarget(m, offsetTop, selected, selected)
            <==> selected == 0 || m.cardGapBottom == 0.0
  {
    var d := selected as real * m.cardGapBottom;
    assert d == 0.0 <==> selected == 0 || m.cardGapBottom == 0.0;
  }

  /** With the preference off, the whole selection batch is the library's. */
  lemma ReverseClickOffIsLibraryLayout(m: Geometry.Metrics, offsetTop: int, selected: int)
    ensures Deck.SelectionLayout(m, offsetTop, selected, AnimatorHook(false))
            == Deck.SelectionLayout(m, offsetTop, selected, Deck.BaseTarget)
  {
    var a := Deck.SelectionLayout(m, offsetTop, selected, AnimatorHook(false));
    var b := Deck.SelectionLayout(m, offsetTop, selected, Deck.BaseTarget);
    forall i | 0 <= i < m.count
      ensures a[i] == b[i]
    {
      assert a[i] == AnimatorTarget(false, m, offsetTop, i, selected);
    }
  }

  // ---------------------------------------------------------------------------
  // updatePrefsIfRequired
  // ---------------------------------------------------------------------------

  /** The three text fields of the settings card. */
  datatype Field = ParallaxScaleField | CardGapField | CardGapBottomField

  /** The preference key each field is stored under. */
  function KeyFor(f: Field): (key: string)
    ensures |key| > 0
  {
    match f
    case ParallaxScaleField => "parallaxScale"
    case CardGapField => "cardGap"
    case CardGapBottomField => "cardGapBottom"
  }

  /** Different fields never share a key. */
  lemma KeysDistinct(f: Field, g: Field)
    requires f != g
    ensures KeyFor(f) != KeyFor(g)
  {
    assert KeyFor(f)[0] != KeyFor(g)[0] || |KeyFor(f)| != |KeyFor(g)|;
  }

  predicate IsDigit(c: char)
  {
    '0' <= c <= '9'
  }

  predicate AllDigits(s: string)
  {
    forall i :: 0 <= i < |s| ==> IsDigit(s[i])
  }

  function DigitValue(c: char): nat
    requires IsDigit(c)
  {
    c as int - '0' as int
  }

  function DigitChar(d: nat): (c: char)
    requires d < 10
    ensures IsDigit(c) && DigitValue(c) == d
  {
    ('0' as int + d) as char
  }

  /** The value of a string of decimal digits, most significant first. */
  function DigitsValue(s: string): nat
    requires AllDigits(s)
  {
    if |s| == 0 then 0 else DigitsValue(s[..|s| - 1]) * 10 + DigitValue(s[|s| - 1])
  }

  /** The shortest decimal digits of `n`. */
  function NatToDigits(n: nat): (s: string)
    ensures |s| > 0 && AllDigits(s)
    ensures |s| > 1 ==> s[0] != '0'
  {
    if n < 10 then [DigitChar(n)] else NatToDigits(n / 10) + [DigitChar(n % 10)]
  }

  /** Integer.toString, which the settings card uses to show a stored value. */
  function IntToString(v: int): string
  {
    if v < 0 then "-" + NatToDigits(-v) else NatToDigits(v)
  }

  /** A decimal numeral: an optional '-' or '+', then at least one digit. */
  predicate Numeral(s: string)
  {
    && |s| > 0
    && (IsDigit(s[0]) || (|s| > 1 && (s[0] == '-' || s[0] == '+')))
    && forall i :: 0 < i < |s| ==> IsDigit(s[i])
  }

  /** The digits of a numeral, after its sign if it has one. */
  function Magnitude(s: string): (d: string)
    requires Numeral(s)
    ensures |d| > 0 && AllDigits(d)
  {
    if IsDigit(s[0]) then s else s[1..]
  }

  /** The mathematical value of a numeral, whatever its size. */
  function NumeralValue(s: string): int
    requires Numeral(s)
  {
    if s[0] == '-' then -(DigitsValue(Magnitude(s)) as int) else DigitsValue(Magnitude(s))
  }

  /**
   * Integer.parseInt(s) in base 10: it accepts exactly the numerals whose value
   * fits in 32 bits and returns that value; anything else throws, here None.
   */
  function ParseInt(s: string): (r: Option<int>)
    ensures r.Some? <==> Numeral(s) && JavaInt.MIN_VALUE <= NumeralValue(s) <= JavaInt.MAX_VALUE
    ensures r.Some? ==> r.value == NumeralValue(s)
  {
    if |s| == 0 then None
    else
      var negative := s[0] == '-';
      var digits := if s[0] == '-' || s[0] == '+' then s[1..] else s;
      if |digits| == 0 || !AllDigits(digits) then None
      else
        var v: int := if negative then -(DigitsValue(digits) as int) else DigitsValue(digits);
        if JavaInt.MIN_VALUE <= v <= JavaInt.MAX_VALUE then Some(v) else None
  }

  /** A numeral as Integer.toString writes it: no '+', no leading zero, no "-0". */
  predicate Canonical(s: string)
  {
    && Numeral(s)
    && s[0] != '+'
    && (|Magnitude(s)| > 1 ==> Magnitude(s)[0] != '0')
    && (s[0] == '-' ==> Magnitude(s) != "0")
  }

  /** Reading back the digits of a number gives the number. */
  lemma {:induction false} DigitsRoundTrip(n: nat)
    ensures DigitsValue(NatToDigits(n)) == n
  {
    if n >= 10 {
      var s := NatToDigits(n / 10);
      var t := s + [DigitChar(n % 10)];
      assert NatToDigits(n) == t;
      assert t[..|t| - 1] == s;
      DigitsRoundTrip(n / 10);
      assert DigitsValue(t) == (n / 10) * 10 + n % 10;
    } else {
      assert NatToDigits(n)[..0] == [];
    }
  }

  /** Every 32-bit value the settings card shows parses back to itself. */
  lemma ParseShownValue(v: int)
    requires JavaInt.MIN_VALUE <= v <= JavaInt.MAX_VALUE
    ensures ParseInt(IntToString(v)) == Some(v)
  {
    var s := IntToString(v);
    if v < 0 {
      DigitsRoundTrip(-v);
      assert s[1..] == NatToDigits(-v);
    } else {
      DigitsRoundTrip(v);
    }
  }

  /** A digit string without a leading zero has a value of at least one, unless it is "0". */
  lemma {:induction false} LeadingDigitPositive(d: string)
    requires |d| > 0 && AllDigits(d) && d[0] != '0'
    ensures 1 <= DigitsValue(d)
  {
    if |d| > 1 {
      var p := d[..|d| - 1];
      assert p[0] == d[0];
      LeadingDigitPositive(p);
    }
  }

  /** Writing out the value of a digit string without a leading zero gives that string back. */
  lemma {:induction false} DigitsWrittenBack(d: string)
    requires |d| > 0 && AllDigits(d) && (|d| > 1 ==> d[0] != '0')
    ensures NatToDigits(DigitsValue(d)) == d
  {
    var c := d[|d| - 1];
    if |d| == 1 {
      assert d[..0] == [];
      assert d == [DigitChar(DigitValue(c))];
    } else {
      var p := d[..|d| - 1];
      assert p[0] == d[0];
      LeadingDigitPositive(p);
      DigitsWrittenBack(p);
      var n := DigitsValue(d);
      assert n == DigitsValue(p) * 10 + DigitValue(c);
      assert n / 10 == DigitsValue(p) && n % 10 == DigitValue(c);
      assert DigitChar(DigitValue(c)) == c;
      assert d == p + [c];
    }
  }

  /** Integer.toString always writes a canonical numeral. */
  lemma ShownIsCanonical(v: int)
    ensures Canonical(IntToString(v))
  {
    var s := IntToString(v);
    if v < 0 {
      assert s[1..] == NatToDigits(-v);
      DigitsRoundTrip(-v);
      assert DigitsValue("0") == 0;
    }
  }

  /** A canonical numeral that parses is the string Integer.toString writes for its value. */
  lemma CanonicalWrittenBack(s: string, v: int)
    requires Canonical(s) && ParseInt(s) == Some(v)
    ensures IntToString(v) == s
  {
    var d := Magnitude(s);
    DigitsWrittenBack(d);
    if s[0] == '-' {
      assert d[0] != '0' by { assert d != "0"; if |d| == 1 { assert d == [d[0]]; } }
      LeadingDigitPositive(d);
      assert s == "-" + d;
    }
  }

  /** parseInt also accepts numerals toString never writes, which the card then shows rewritten. */
  lemma NonCanonicalAccepted()
    ensures ParseInt("+12") == Some(12) && IntToString(12) == "12"
    ensures ParseInt("007") == Some(7) && IntToString(7) == "7"
    ensures ParseInt("-0") == Some(0) && IntToString(0) == "0"
  {
    assert DigitsValue("12") == 12 by { assert "12"[..1] == "1"; assert "1"[..0] == ""; }
    assert DigitsValue("007") == 7 by { assert "007"[..2] == "00"; assert "00"[..1] == "0"; assert "0"[..0] == ""; }
    assert DigitsValue("0") == 0 by { assert "0"[..0] == ""; }
    assert "+12"[1..] == "12";
    assert "-0"[1..] == "0";
  }

  /** The `value` of updatePrefsIfRequired: the parsed text, or Integer.MIN_VALUE when parsing throws. */
  function ParsedOrMinValue(text: string): (value: int)
    ensures JavaInt.MIN_VALUE <= value <= JavaInt.MAX_VALUE
    ensures value != JavaInt.MIN_VALUE ==> ParseInt(text) == Some(value)
    ensures ParseInt(text).None? ==> value == JavaInt.MIN_VALUE
  {
    match ParseInt(text)
    case Some(v) => v
    case None => JavaInt.MIN_VALUE
  }

  /**
   * updatePrefsIfRequired(view): parses the field's text and, unless that gave
   * Integer.MIN_VALUE, stores the value under the field's key.
   */
  function UpdatePrefsIfRequired(field: Field, text: string, prefs: map<string, int>): (r: map<string, int>)
    ensures ParseInt(text).None? ==> r == prefs
    ensures ParseInt(text) == Some(JavaInt.MIN_VALUE) ==> r == prefs
    ensures ParseInt(text).Some? && ParseInt(text).value != JavaInt.MIN_VALUE ==>
              KeyFor(field) in r && r[KeyFor(field)] == ParseInt(text).value
    ensures r.Keys <= prefs.Keys + {KeyFor(field)}
    ensures forall k :: k in prefs && k != KeyFor(field) ==> k in r && r[k] == prefs[k]
  {
    var value := ParsedOrMinValue(text);
    if value == JavaInt.MIN_VALUE then prefs
    else prefs[KeyFor(field) := value]
  }

  /** A field left showing its stored value stores that value again, so nothing changes. */
  lemma ShownValueWrittenBack(field: Field, prefs: map<string, int>)
    requires KeyFor(field) in prefs
    requires JavaInt.MIN_VALUE < prefs[KeyFor(field)] <= JavaInt.MAX_VALUE
    ensures UpdatePrefsIfRequired(field, IntToString(prefs[KeyFor(field)]), prefs) == prefs
  {
    ParseShownValue(prefs[KeyFor(field)]);
  }

  /** A typed 32-bit value other than Integer.MIN_VALUE is stored under the field's key and nowhere else. */
  lemma TypedValueStored(field: Field, v: int, prefs: map<string, int>)
    requires JavaInt.MIN_VALUE < v <= JavaInt.MAX_VALUE
    ensures UpdatePrefsIfRequired(field, IntToString(v), prefs) == prefs[KeyFor(field) := v]
  {
    ParseShownValue(v);
  }

  /** Integer.MIN_VALUE is a well-formed 32-bit value, yet typing it never stores anything. */
  lemma MinValueNeverWritten(field: Field, prefs: map<string, int>)
    ensures ParseInt(IntToString(JavaInt.MIN_VALUE)) == Some(JavaInt.MIN_VALUE)
    ensures UpdatePrefsIfRequired(field, IntToString(JavaInt.MIN_VALUE), prefs) == prefs
  {
    ParseShownValue(JavaInt.MIN_VALUE);
  }
}
