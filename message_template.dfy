/**
 * The text of the verification SMS: a template whose `%placeholder%` tokens
 * are replaced one placeholder after the other, each over the whole text,
 * the way PHP's `str_replace` does with arrays of search and replace values.
 */
module MessageTemplate {

  /** The user fields the message can mention (PHP's `WP_User` properties). */
  datatype Profile = Profile(login: string, firstName: string, lastName: string, nickname: string)

  const OtpTag: string := "%otp%"
  const UserNameTag: string := "%user_name%"
  const FirstNameTag: string := "%first_name%"
  const LastNameTag: string := "%last_name%"
  const NicknameTag: string := "%nickname%"

  /**
   * The fixed part of the default template, in front of its only placeholder.
   * It is written as short literals joined together, which keeps the solver's
   * cost of reasoning about the characters of a long string literal down.
   */
  const DefaultPrefix: string := "This " + "is " + "the " + "code " + "to " + "verify " + "your " + "phone " + "number: "

  /** The untranslated default template: "This is the code to verify your phone number: %otp%". */
  const DefaultTemplate: string := DefaultPrefix + OtpTag

  /**
   * Replaces every occurrence of `needle` in `s` by `rep`, scanning from the
   * left, never re-examining replaced text; an empty needle changes nothing.
   */
  function ReplaceAll(s: string, needle: string, rep: string): (r: string)
    ensures needle == [] ==> r == s
    ensures forall c :: c in r ==> c in s || c in rep
    decreases |s|
  {
    if needle == [] || |s| < |needle| then s
    else if s[..|needle|] == needle then rep + ReplaceAll(s[|needle|..], needle, rep)
    else [s[0]] + ReplaceAll(s[1..], needle, rep)
  }

  /** A text that does not hold the needle's first character is not changed. */
  lemma {:induction false} ReplaceAbsent(s: string, needle: string, rep: string)
    requires needle != [] && needle[0] !in s
    ensures ReplaceAll(s, needle, rep) == s
    decreases |s|
  {
    if |s| >= |needle| {
      assert s[..|needle|][0] == s[0];
      assert s[0] in s;
      assert forall c :: c in s[1..] ==> c in s;
      ReplaceAbsent(s[1..], needle, rep);
    }
  }

  /** No position of `s` starts an occurrence of `needle`. */
  predicate NoOccurrence(s: string, needle: string) {
    forall i :: 0 <= i <= |s| - |needle| ==> s[i..][..|needle|] != needle
  }

  /** A text that holds no occurrence of the needle is not changed. */
  lemma {:induction false} ReplaceNoOccurrence(s: string, needle: string, rep: string)
    requires needle != [] && NoOccurrence(s, needle)
    ensures ReplaceAll(s, needle, rep) == s
    decreases |s|
  {
    if |s| >= |needle| {
      assert s[0..] == s;
      assert s[..|needle|] != needle;
      forall i | 0 <= i <= |s[1..]| - |needle|
        ensures s[1..][i..][..|needle|] != needle
      {
        assert s[1..][i..] == s[i + 1..];
      }
      ReplaceNoOccurrence(s[1..], needle, rep);
      assert s == [s[0]] + s[1..];
    }
  }

  /** A prefix without the needle's first character is copied and the scan goes on after it. */
  lemma {:induction false} ReplaceAfterPrefix(p: string, s: string, needle: string, rep: string)
    requires needle != [] && needle[0] !in p
    ensures ReplaceAll(p + s, needle, rep) == p + ReplaceAll(s, needle, rep)
    decreases |p|
  {
    if p != [] {
      var t := p + s;
      assert t[0] == p[0];
      assert p[0] != needle[0] by { assert p[0] in p; }
      assert t[1..] == p[1..] + s;
      assert needle[0] !in p[1..] by {
        forall c | c in p[1..] ensures c in p { }
      }
      if |t| >= |needle| {
        assert t[..|needle|][0] != needle[0];
      }
      calc {
        ReplaceAll(t, needle, rep);
        [p[0]] + ReplaceAll(p[1..] + s, needle, rep);
        { ReplaceAfterPrefix(p[1..], s, needle, rep); }
        [p[0]] + (p[1..] + ReplaceAll(s, needle, rep));
        { assert [p[0]] + p[1..] == p; }
        p + ReplaceAll(s, needle, rep);
      }
    } else {
      assert p + s == s;
    }
  }

  /** No occurrence of `needle` in `t` starts before position `k`. */
  predicate NoMatchBefore(t: string, k: nat, needle: string) {
    forall i :: 0 <= i < k && i + |needle| <= |t| ==> t[i..][..|needle|] != needle
  }

  /** A prefix in which no occurrence of the needle starts is copied and the scan goes on after it. */
  lemma {:induction false} ReplaceSkip(p: string, s: string, needle: string, rep: string)
    requires needle != [] && NoMatchBefore(p + s, |p|, needle)
    ensures ReplaceAll(p + s, needle, rep) == p + ReplaceAll(s, needle, rep)
    decreases |p|
  {
    var t := p + s;
    if p == [] {
      assert t == s;
    } else if |t| < |needle| {
      assert ReplaceAll(s, needle, rep) == s;
    } else {
      var u := p[1..] + s;
      assert t[1..] == u;
      forall i | 0 <= i < |p[1..]| && i + |needle| <= |u|
        ensures u[i..][..|needle|] != needle
      {
        assert u[i..] == t[i + 1..];
      }
      assert t[0..] == t;
      assert t[..|needle|] != needle;
      assert ReplaceAll(t, needle, rep) == [t[0]] + ReplaceAll(u, needle, rep);
      ReplaceSkip(p[1..], s, needle, rep);
      assert [p[0]] + p[1..] == p;
    }
  }

  /**
   * The first occurrence of the needle is replaced by `rep` and the scan goes
   * on after it, whatever characters come before it.
   */
  lemma ReplaceFirst(p: string, needle: string, s: string, rep: string)
    requires needle != [] && NoMatchBefore(p + needle + s, |p|, needle)
    ensures ReplaceAll(p + needle + s, needle, rep) == p + rep + ReplaceAll(s, needle, rep)
  {
    var t := needle + s;
    assert p + needle + s == p + t;
    ReplaceSkip(p, t, needle, rep);
    assert t[..|needle|] == needle && t[|needle|..] == s;
  }

  /**
   * An occurrence of the needle, after a prefix free of its first character,
   * is replaced by `rep` and the scan goes on after it.
   */
  lemma ReplaceAtNeedle(p: string, needle: string, s: string, rep: string)
    requires needle != [] && needle[0] !in p
    ensures ReplaceAll(p + needle + s, needle, rep) == p + rep + ReplaceAll(s, needle, rep)
  {
    var t := needle + s;
    assert p + needle + s == p + t;
    ReplaceAfterPrefix(p, t, needle, rep);
    assert t[..|needle|] == needle && t[|needle|..] == s;
  }

  /** Replacing a needle by itself changes nothing. */
  lemma {:induction false} ReplaceBySelf(s: string, needle: string)
    ensures ReplaceAll(s, needle, needle) == s
    decreases |s|
  {
    if needle != [] && |s| >= |needle| {
      if s[..|needle|] == needle {
        ReplaceBySelf(s[|needle|..], needle);
        assert s == s[..|needle|] + s[|needle|..];
      } else {
        ReplaceBySelf(s[1..], needle);
        assert s == [s[0]] + s[1..];
      }
    }
  }

  /** The character of a decimal digit. */
  function DigitChar(d: nat): (c: char)
    requires d < 10
    ensures '0' <= c <= '9'
    ensures c as int - '0' as int == d
  {
    ('0' as int + d) as char
  }

  /** The decimal text of `n`, as PHP writes an integer into a string. */
  function Decimal(n: nat): (r: string)
    ensures r != []
    ensures forall i :: 0 <= i < |r| ==> '0' <= r[i] <= '9'
  {
    if n < 10 then [DigitChar(n)] else Decimal(n / 10) + [DigitChar(n % 10)]
  }

  /** The value a string of decimal digits denotes. */
  function DecimalValue(s: string): (n: nat)
    requires forall i :: 0 <= i < |s| ==> '0' <= s[i] <= '9'
  {
    if s == [] then 0 else 10 * DecimalValue(s[..|s| - 1]) + (s[|s| - 1] as int - '0' as int)
  }

  /** Reading back the decimal text of `n` gives `n`. */
  lemma {:induction false} DecimalRoundTrip(n: nat)
    ensures DecimalValue(Decimal(n)) == n
  {
    var r := Decimal(n);
    if n < 10 {
      assert r[..0] == [];
    } else {
      DecimalRoundTrip(n / 10);
      assert r[..|r| - 1] == Decimal(n / 10);
    }
  }

  function Pow10(k: nat): (p: nat)
    ensures p >= 1
  {
    if k == 0 then 1 else 10 * Pow10(k - 1)
  }

  /** A number in [10^k, 10^(k+1)) has k + 1 decimal digits. */
  lemma {:induction false} DecimalLength(n: nat, k: nat)
    requires Pow10(k) <= n < Pow10(k + 1)
    ensures |Decimal(n)| == k + 1
  {
    if k > 0 {
      assert Pow10(k) == 10 * Pow10(k - 1);
      assert Pow10(k + 1) == 10 * Pow10(k);
      assert n >= 10;
      assert Pow10(k - 1) <= n / 10 < Pow10(k);
      DecimalLength(n / 10, k - 1);
    }
  }

  /** Every verification code has exactly six digits. */
  lemma SixDigitCode(code: nat)
    requires 111111 <= code <= 999999
    ensures |Decimal(code)| == 6
  {
    assert Pow10(5) == 100000 && Pow10(6) == 1000000;
    DecimalLength(code, 5);
  }

  /** The configured template when it is set (non-empty and not "0"), the default one otherwise. */
  function ChooseTemplate(configured: string): (t: string)
    ensures configured != "" && configured != "0" ==> t == configured
    ensures configured == "" || configured == "0" ==> t == DefaultTemplate
  {
    if configured != "" && configured != "0" then configured else DefaultTemplate
  }

  /** The message for one user and one code: the five placeholders replaced in turn. */
  function Render(template: string, code: nat, user: Profile): (m: string)
    ensures forall c :: c in m ==>
              || c in template || c in Decimal(code) || c in user.login
              || c in user.firstName || c in user.lastName || c in user.nickname
  {
    var withCode := ReplaceAll(template, OtpTag, Decimal(code));
    var withLogin := ReplaceAll(withCode, UserNameTag, user.login);
    var withFirst := ReplaceAll(withLogin, FirstNameTag, user.firstName);
    var withLast := ReplaceAll(withFirst, LastNameTag, user.lastName);
    ReplaceAll(withLast, NicknameTag, user.nickname)
  }

  /** The fixed sentence of the default template holds no `%`. */
  lemma NoPercentInDefaultPrefix()
    ensures '%' !in DefaultPrefix
  {
  }

  /**
   * A `%word%` token is left alone by a `%`-led needle whose second
   * character differs from the word's first.
   */
  lemma ReplaceMissesTag(word: string, needle: string, rep: string)
    requires '%' !in word && word != [] && |needle| >= 2 && needle[0] == '%'
    requires word[0] != needle[1]
    ensures ReplaceAll("%" + word + "%", needle, rep) == "%" + word + "%"
  {
    var s := "%" + word + "%";
    if |s| >= |needle| {
      assert s[..|needle|][1] == word[0];
      assert s[1..] == word + "%";
      ReplaceAfterPrefix(word, "%", needle, rep);
    }
  }

  /** With the default template the message is the fixed sentence followed by the code. */
  lemma RenderDefault(code: nat, user: Profile)
    ensures Render(DefaultTemplate, code, user) == DefaultPrefix + Decimal(code)
  {
    var d := Decimal(code);
    NoPercentInDefaultPrefix();
    ReplaceAfterPrefix(DefaultPrefix, OtpTag, OtpTag, d);
    assert OtpTag[..|OtpTag|] == OtpTag && OtpTag[|OtpTag|..] == [];
    var m := DefaultPrefix + d;
    assert ReplaceAll(DefaultTemplate, OtpTag, d) == m;
    assert forall i :: 0 <= i < |d| ==> d[i] != '%';
    assert '%' !in m;
    ReplaceAbsent(m, UserNameTag, user.login);
    ReplaceAbsent(m, FirstNameTag, user.firstName);
    ReplaceAbsent(m, LastNameTag, user.lastName);
    ReplaceAbsent(m, NicknameTag, user.nickname);
  }

  /** A template without any `%` is sent as it is: it does not even carry the code. */
  lemma RenderWithoutPlaceholders(template: string, code: nat, user: Profile)
    requires '%' !in template
    ensures Render(template, code, user) == template
  {
    ReplaceAbsent(template, OtpTag, Decimal(code));
    ReplaceAbsent(template, UserNameTag, user.login);
    ReplaceAbsent(template, FirstNameTag, user.firstName);
    ReplaceAbsent(template, LastNameTag, user.lastName);
    ReplaceAbsent(template, NicknameTag, user.nickname);
  }

  /** A template in which none of the five placeholders occurs is sent as it is, `%` signs included. */
  lemma RenderWithoutTags(template: string, code: nat, user: Profile)
    requires NoOccurrence(template, OtpTag) && NoOccurrence(template, UserNameTag)
    requires NoOccurrence(template, FirstNameTag) && NoOccurrence(template, LastNameTag)
    requires NoOccurrence(template, NicknameTag)
    ensures Render(template, code, user) == template
  {
    ReplaceNoOccurrence(template, OtpTag, Decimal(code));
    ReplaceNoOccurrence(template, UserNameTag, user.login);
    ReplaceNoOccurrence(template, FirstNameTag, user.firstName);
    ReplaceNoOccurrence(template, LastNameTag, user.lastName);
    ReplaceNoOccurrence(template, NicknameTag, user.nickname);
  }

  /**
   * The substitution is sequential: a first name that itself reads `%last_name%`
   * is replaced again by the last name in the step that follows.
   */
  lemma RenderIsSequential(code: nat, login: string, last: string, nick: string)
    requires '%' !in last
    ensures Render(FirstNameTag, code, Profile(login, LastNameTag, last, nick)) == last
  {
    var first, lastWord: string := "first_name", "last_name";
    assert FirstNameTag == "%" + first + "%" && LastNameTag == "%" + lastWord + "%";
    ReplaceMissesTag(first, OtpTag, Decimal(code));
    ReplaceMissesTag(first, UserNameTag, login);
    assert FirstNameTag[..|FirstNameTag|] == FirstNameTag && FirstNameTag[|FirstNameTag|..] == [];
    assert ReplaceAll(FirstNameTag, FirstNameTag, LastNameTag) == LastNameTag;
    assert LastNameTag[..|LastNameTag|] == LastNameTag && LastNameTag[|LastNameTag|..] == [];
    assert ReplaceAll(LastNameTag, LastNameTag, last) == last;
    ReplaceAbsent(last, NicknameTag, nick);
  }

  /** A site without a configured template sends the fixed sentence followed by the issued code. */
  lemma UnconfiguredSiteSendsCode(configured: string, code: nat, user: Profile)
    requires configured == "" || configured == "0"
    ensures Render(ChooseTemplate(configured), code, user) == DefaultPrefix + Decimal(code)
  {
    RenderDefault(code, user);
  }
}
