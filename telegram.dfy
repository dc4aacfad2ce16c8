// Telegram reminders: HTML escaping of user text, the choice of reminder
// text by days until payment, and the guard in front of the Bot API call.
// The HTTP request itself is an abstract outcome.

module Telegram {
  import opened Common
  import opened SyncTypes

  // ---------------------------------------------------------------------
  // escapeHtml
  // ---------------------------------------------------------------------

  /** `str.replace(/c/g, rep)`. */
  function ReplaceAll(s: string, c: char, rep: string): (r: string)
    ensures c !in rep ==> c !in r
  {
    if s == [] then [] else (if s[0] == c then rep else [s[0]]) + ReplaceAll(s[1..], c, rep)
  }

  /** escapeHtml: `&` first, then `<`, then `>`. */
  function EscapeHtml(s: string): string
  {
    ReplaceAll(ReplaceAll(ReplaceAll(s, '&', "&amp;"), '<', "&lt;"), '>', "&gt;")
  }

  /** The escape of one character, independently of the replace chain. */
  function EscapeChar(c: char): string
  {
    if c == '&' then "&amp;" else if c == '<' then "&lt;" else if c == '>' then "&gt;" else [c]
  }

  /** The character-by-character escape. */
  function EscapedChars(s: string): string
  {
    if s == [] then [] else EscapeChar(s[0]) + EscapedChars(s[1..])
  }

  lemma {:induction false} ReplaceAllAppend(a: string, b: string, c: char, rep: string)
    ensures ReplaceAll(a + b, c, rep) == ReplaceAll(a, c, rep) + ReplaceAll(b, c, rep)
  {
    if a != [] {
      var head := if a[0] == c then rep else [a[0]];
      calc {
        ReplaceAll(a + b, c, rep);
        { assert (a + b)[0] == a[0]; assert (a + b)[1..] == a[1..] + b; }
        head + ReplaceAll(a[1..] + b, c, rep);
        { ReplaceAllAppend(a[1..], b, c, rep); }
        head + (ReplaceAll(a[1..], c, rep) + ReplaceAll(b, c, rep));
        ReplaceAll(a, c, rep) + ReplaceAll(b, c, rep);
      }
    } else {
      assert a + b == b;
    }
  }

  lemma {:induction false} ReplaceAllAbsent(s: string, c: char, rep: string)
    requires c !in s
    ensures ReplaceAll(s, c, rep) == s
  {
    if s != [] {
      ReplaceAllAbsent(s[1..], c, rep);
    }
  }

  /** The replace chain distributes over concatenation. */
  lemma EscapeHtmlAppend(a: string, b: string)
    ensures EscapeHtml(a + b) == EscapeHtml(a) + EscapeHtml(b)
  {
    ReplaceAllAppend(a, b, '&', "&amp;");
    var a1, b1 := ReplaceAll(a, '&', "&amp;"), ReplaceAll(b, '&', "&amp;");
    ReplaceAllAppend(a1, b1, '<', "&lt;");
    var a2, b2 := ReplaceAll(a1, '<', "&lt;"), ReplaceAll(b1, '<', "&lt;");
    ReplaceAllAppend(a2, b2, '>', "&gt;");
  }

  lemma ReplaceOne(c: char, d: char, rep: string)
    ensures ReplaceAll([c], d, rep) == if c == d then rep else [c]
  {
    assert [c][1..] == [];
  }

  /** The chain on one character: an `&` it introduces is never escaped again. */
  lemma EscapeOne(c: char)
    ensures EscapeHtml([c]) == EscapeChar(c)
  {
    ReplaceOne(c, '&', "&amp;");
    if c == '&' {
      EscapeAmp();
    } else {
      ReplaceOne(c, '<', "&lt;");
      if c == '<' {
        EscapeLt();
      } else {
        ReplaceOne(c, '>', "&gt;");
      }
    }
  }

  /** The `&amp;` the first replace produces passes the other two unchanged. */
  lemma EscapeAmp()
    ensures ReplaceAll(ReplaceAll("&amp;", '<', "&lt;"), '>', "&gt;") == "&amp;"
  {
    var amp := "&amp;";
    assert '<' !in amp && '>' !in amp by {
      assert amp == ['&', 'a', 'm', 'p', ';'];
    }
    ReplaceAllAbsent(amp, '<', "&lt;");
    ReplaceAllAbsent(amp, '>', "&gt;");
  }

  /** The `&lt;` the second replace produces passes the third unchanged. */
  lemma EscapeLt()
    ensures ReplaceAll("&lt;", '>', "&gt;") == "&lt;"
  {
    ReplaceAllAbsent("&lt;", '>', "&gt;");
  }

  /** The chain of three replaces escapes every character exactly once. */
  lemma {:induction false} EscapeHtmlPerChar(s: string)
    ensures EscapeHtml(s) == EscapedChars(s)
  {
    if s != [] {
      assert s == [s[0]] + s[1..];
      EscapeHtmlAppend([s[0]], s[1..]);
      EscapeOne(s[0]);
      EscapeHtmlPerChar(s[1..]);
    }
  }

  lemma {:induction false} EscapedCharsHasNoBrackets(s: string)
    ensures '<' !in EscapedChars(s) && '>' !in EscapedChars(s)
  {
    if s != [] {
      EscapedCharsHasNoBrackets(s[1..]);
    }
  }

  lemma {:induction false} EscapedCharsPlain(s: string)
    requires '&' !in s && '<' !in s && '>' !in s
    ensures EscapedChars(s) == s
  {
    if s != [] {
      EscapedCharsPlain(s[1..]);
    }
  }

  /** Escaped text carries no markup brackets, and text without `&`, `<`
      or `>` is left as it is. */
  lemma EscapeHtmlSpec(s: string)
    ensures '<' !in EscapeHtml(s) && '>' !in EscapeHtml(s)
    ensures '&' !in s && '<' !in s && '>' !in s ==> EscapeHtml(s) == s
  {
    EscapeHtmlPerChar(s);
    EscapedCharsHasNoBrackets(s);
    if '&' !in s && '<' !in s && '>' !in s {
      EscapedCharsPlain(s);
    }
  }

  /** A `<` becomes `&lt;`, not `&amp;lt;`. */
  lemma EscapeLessThan()
    ensures EscapeHtml("<") == "&lt;"
  {
    EscapeHtmlPerChar("<");
  }

  // ---------------------------------------------------------------------
  // sendTelegramPaymentReminder's text
  // ---------------------------------------------------------------------

  datatype ReminderKind = DueToday | DueIn(days: nat) | OverdueBy(days: nat)

  /** The branch the reminder takes on `daysUntil`. */
  function KindOf(daysUntil: int): (k: ReminderKind)
    ensures k.DueToday? <==> daysUntil == 0
    ensures k.DueIn? <==> daysUntil > 0
    ensures k.DueIn? ==> k.days == daysUntil
    ensures k.OverdueBy? ==> k.days == -daysUntil && k.days > 0
  {
    if daysUntil == 0 then DueToday
    else if daysUntil > 0 then DueIn(daysUntil)
    else OverdueBy(-daysUntil)
  }

  const Dash: string := " \U{2014} "

  /** The line between the escaped name and the amount for each kind. */
  function Headline(k: ReminderKind): string
  {
    match k
    case DueToday => "payment is due <b>today</b>!"
    case DueIn(n) => "payment in <b>" + NatToString(n) + "</b> day(s)"
    case OverdueBy(n) => "<b>overdue</b> by " + NatToString(n) + " day(s)"
  }

  function Icon(k: ReminderKind): string
  {
    match k
    case DueToday => "\U{1F4B0}"
    case DueIn(_) => "\U{1F514}"
    case OverdueBy(_) => "\U{26A0}\U{FE0F}"
  }

  /** The message text sendTelegramPaymentReminder builds. */
  function ReminderText(name: string, daysUntil: int, price: string): string
  {
    var k := KindOf(daysUntil);
    Icon(k) + ReminderBody(k, name, price)
  }

  /** Everything after the icon: the escaped name in bold, the headline, the escaped amount. */
  function ReminderBody(k: ReminderKind, name: string, price: string): string
  {
    " <b>" + EscapeHtml(name) + "</b>" + Dash + Headline(k) + "\nAmount: " + EscapeHtml(price)
  }

  /** The text names the subscription and the amount only in escaped form,
      opens with the kind's icon, and states the day count for a future or
      an overdue payment. */
  lemma ReminderTextSpec(name: string, daysUntil: int, price: string)
    ensures StartsWith(ReminderText(name, daysUntil, price), Icon(KindOf(daysUntil)))
    ensures '<' !in EscapeHtml(name) && '<' !in EscapeHtml(price)
    ensures daysUntil > 0 ==> Headline(KindOf(daysUntil)) == "payment in <b>" + IntToString(daysUntil) + "</b> day(s)"
    ensures daysUntil < 0 ==> Headline(KindOf(daysUntil)) == "<b>overdue</b> by " + IntToString(-daysUntil) + " day(s)"
  {
    var k := KindOf(daysUntil);
    PrefixOfAppend(Icon(k), ReminderBody(k, name, price));
    HeadlineOfDays(daysUntil);
    EscapeHtmlSpec(name);
    EscapeHtmlSpec(price);
  }

  lemma HeadlineOfDays(daysUntil: int)
    ensures daysUntil > 0 ==> Headline(KindOf(daysUntil)) == "payment in <b>" + IntToString(daysUntil) + "</b> day(s)"
    ensures daysUntil < 0 ==> Headline(KindOf(daysUntil)) == "<b>overdue</b> by " + IntToString(-daysUntil) + " day(s)"
  {
    if daysUntil > 0 {
      var n: nat := daysUntil;
      assert KindOf(daysUntil) == DueIn(n);
      assert Headline(DueIn(n)) == "payment in <b>" + NatToString(n) + "</b> day(s)";
      assert IntToString(daysUntil) == NatToString(n);
    } else if daysUntil < 0 {
      var n: nat := -daysUntil;
      assert KindOf(daysUntil) == OverdueBy(n);
      assert Headline(OverdueBy(n)) == "<b>overdue</b> by " + NatToString(n) + " day(s)";
      assert IntToString(-daysUntil) == NatToString(n);
    }
  }

  lemma PrefixOfAppend(a: string, b: string)
    ensures StartsWith(a + b, a)
  {
    assert (a + b)[..|a|] == a;
  }

  // ---------------------------------------------------------------------
  // sendTelegramMessage
  // ---------------------------------------------------------------------

  /** Whether sendTelegramMessage issues a request: both credentials set. */
  predicate Configured(botToken: string, chatId: string)
  {
    botToken != "" && chatId != ""
  }

  /** sendTelegramMessage's result, given what the request would settle to:
      false without a request when unconfigured; otherwise true iff the
      response is OK. */
  function SendResult(botToken: string, chatId: string, response: Http<string>): (sent: bool)
    ensures sent ==> Configured(botToken, chatId) && response.Ok()
    ensures Configured(botToken, chatId) && response.Ok() ==> sent
    ensures !Configured(botToken, chatId) ==> !sent
  {
    if botToken == "" || chatId == "" then false
    else response.Ok()
  }
}
