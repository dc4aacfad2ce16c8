// Payment notifications: the schedule window, the once-a-day check, the
// `{key}` template substitution, and checkAndNotify's classification of
// every subscription into in-app alerts and deliveries.
//
// The clock enters as numbers: the local hour, the whole-day distance from
// today to each `nextPayment`, and two calendar dates, the one the
// once-a-day check compares against and the one a delivery is stamped with.
// System notifications and Telegram reminders are recorded as effects; a
// system notification that throws is one of the parameters.

module Notifications {
  import opened Common
  import opened Schema

  // ---------------------------------------------------------------------
  // Alerts
  // ---------------------------------------------------------------------

  datatype AlertType = Upcoming | DueToday | Overdue

  function AlertTypeName(t: AlertType): string
  {
    match t
    case Upcoming => "upcoming"
    case DueToday => "due_today"
    case Overdue => "overdue"
  }

  /** `InAppAlert`. */
  datatype InAppAlert = InAppAlert(
    id: string, subscriptionId: string, subscriptionName: string, kind: AlertType,
    daysUntil: int, price: real, currencyId: string)

  // ---------------------------------------------------------------------
  // Schedule and once-a-day check
  // ---------------------------------------------------------------------

  /** isWithinSchedule at local hour `hour` (0-23). An empty schedule is
      "any", and an unrecognised one allows every hour. */
  function IsWithinSchedule(settings: Settings, hour: int): (r: bool)
    ensures settings.notificationSchedule in {"", "any"} ==> r
    ensures settings.notificationSchedule == "morning" ==> (r <==> 7 <= hour < 12)
    ensures settings.notificationSchedule == "evening" ==> (r <==> 17 <= hour < 22)
    ensures settings.notificationSchedule == "custom" ==>
      (r <==> settings.notificationCustomHour <= hour <= settings.notificationCustomHour + 1)
    ensures settings.notificationSchedule !in {"", "any", "morning", "evening", "custom"} ==> r
  {
    var schedule := if settings.notificationSchedule == "" then "any" else settings.notificationSchedule;
    if schedule == "any" then true
    else if schedule == "morning" then 7 <= hour && hour < 12
    else if schedule == "evening" then 17 <= hour && hour < 22
    else if schedule == "custom" then
      var target := settings.notificationCustomHour;
      target <= hour && hour <= target + 1
    else true
  }

  /** alreadyNotifiedToday: a non-empty stamp equal to today's date. */
  predicate AlreadyNotifiedToday(lastNotifiedDate: string, today: string)
  {
    lastNotifiedDate != "" && lastNotifiedDate == today
  }

  // ---------------------------------------------------------------------
  // applyTemplate
  // ---------------------------------------------------------------------

  /** A character of the regular-expression class `\w`. */
  predicate IsWordChar(c: char)
  {
    'a' <= c <= 'z' || 'A' <= c <= 'Z' || '0' <= c <= '9' || c == '_'
  }

  /** The length of the run of word characters at the start of `s`. */
  function WordRun(s: string): (n: nat)
    ensures n <= |s|
    ensures forall i :: 0 <= i < n ==> IsWordChar(s[i])
    ensures n < |s| ==> !IsWordChar(s[n])
  {
    if s == [] || !IsWordChar(s[0]) then 0 else 1 + WordRun(s[1..])
  }

  /** The length of a `{key}` placeholder at the start of `t`, or 0. */
  function PlaceholderAt(t: string): (n: nat)
    ensures n == 0 || (3 <= n <= |t| && t[0] == '{' && t[n - 1] == '}')
  {
    if t == [] || t[0] != '{' then 0
    else
      var k := WordRun(t[1..]);
      if k > 0 && k + 1 < |t| && t[k + 1] == '}' then k + 2 else 0
  }

  /** `template.replace(/\{(\w+)\}/g, ...)`: each placeholder whose key has
      a value becomes that value, any other placeholder is kept verbatim,
      and the replacement text is not scanned again. */
  function ApplyTemplate(t: string, vars: map<string, string>): string
    decreases |t|
  {
    if t == [] then []
    else
      var n := PlaceholderAt(t);
      if n > 0 then
        var key := t[1..n - 1];
        (if key in vars then vars[key] else t[..n]) + ApplyTemplate(t[n..], vars)
      else [t[0]] + ApplyTemplate(t[1..], vars)
  }

  /** Without values every placeholder is left as it is. */
  lemma {:induction false} ApplyTemplateNoValues(t: string)
    ensures ApplyTemplate(t, map[]) == t
    decreases |t|
  {
    if t != [] {
      var n := PlaceholderAt(t);
      if n > 0 {
        ApplyTemplateNoValues(t[n..]);
        assert t[..n] + t[n..] == t;
      } else {
        ApplyTemplateNoValues(t[1..]);
        assert [t[0]] + t[1..] == t;
      }
    }
  }

  /** Text before the first `{` passes through unchanged. */
  lemma {:induction false} ApplyTemplatePlainPrefix(pre: string, rest: string, vars: map<string, string>)
    requires '{' !in pre
    ensures ApplyTemplate(pre + rest, vars) == pre + ApplyTemplate(rest, vars)
  {
    if pre != [] {
      var t := pre + rest;
      assert t[0] == pre[0] && pre[0] in pre;
      assert t[1..] == pre[1..] + rest;
      ApplyTemplatePlainChar(t, vars);
      ApplyTemplatePlainPrefix(pre[1..], rest, vars);
      assert [pre[0]] + pre[1..] == pre;
    } else {
      assert pre + rest == rest;
    }
  }

  /** A character other than `{` is copied. */
  lemma ApplyTemplatePlainChar(t: string, vars: map<string, string>)
    requires t != [] && t[0] != '{'
    ensures ApplyTemplate(t, vars) == [t[0]] + ApplyTemplate(t[1..], vars)
  {
  }

  /** A placeholder whose key has a value is replaced by it. */
  lemma ApplyTemplatePlaceholder(key: string, rest: string, vars: map<string, string>)
    requires key != [] && forall i :: 0 <= i < |key| ==> IsWordChar(key[i])
    requires key in vars
    ensures ApplyTemplate("{" + key + "}" + rest, vars) == vars[key] + ApplyTemplate(rest, vars)
  {
    var t := "{" + key + "}" + rest;
    assert t[1..][..|key|] == key;
    assert WordRun(t[1..]) == |key| by {
      WordRunOfWord(key, "}" + rest);
      assert t[1..] == key + ("}" + rest);
    }
    assert t[|key| + 1] == '}';
    assert t[1..|key| + 1] == key;
    assert t[|key| + 2..] == rest;
  }

  lemma {:induction false} WordRunOfWord(key: string, rest: string)
    requires forall i :: 0 <= i < |key| ==> IsWordChar(key[i])
    requires rest != [] && !IsWordChar(rest[0])
    ensures WordRun(key + rest) == |key|
  {
    if key != [] {
      assert (key + rest)[1..] == key[1..] + rest;
      WordRunOfWord(key[1..], rest);
    } else {
      assert key + rest == rest;
    }
  }

  const DefaultTitle: string := "Subly \U{2014} Payment Reminder"
  const DefaultDueTodayBody: string := "Payment for \"{name}\" is due today!"
  const DefaultDueSoonBody: string := "Payment for \"{name}\" is due in {days} day(s)."
  const DefaultOverdueTitle: string := "Subly \U{2014} Overdue Payment"
  const DefaultOverdueBody: string := "\"{name}\" is overdue by {days} day(s)."

  /** A template with one placeholder between plain text, such as the
      fallback bodies, reads with the value in its place. */
  lemma ApplyTemplateOnePlaceholder(pre: string, key: string, post: string, vars: map<string, string>)
    requires '{' !in pre && '{' !in post
    requires key != [] && forall i :: 0 <= i < |key| ==> IsWordChar(key[i])
    requires key in vars
    ensures ApplyTemplate(pre + "{" + key + "}" + post, vars) == pre + vars[key] + post
  {
    var hole := "{" + key + "}" + post;
    calc {
      ApplyTemplate(pre + "{" + key + "}" + post, vars);
      { assert pre + "{" + key + "}" + post == pre + hole; }
      ApplyTemplate(pre + hole, vars);
      { ApplyTemplatePlainPrefix(pre, hole, vars); }
      pre + ApplyTemplate(hole, vars);
      { ApplyTemplatePlaceholder(key, post, vars); }
      pre + (vars[key] + ApplyTemplate(post, vars));
      { ApplyTemplatePlainPrefix(post, [], vars); assert post + [] == post; }
      pre + (vars[key] + (post + ApplyTemplate([], vars)));
      pre + vars[key] + post;
    }
  }

  // ---------------------------------------------------------------------
  // checkAndNotify
  // ---------------------------------------------------------------------

  /** `ctx.telegram`. */
  datatype TelegramCtx = TelegramCtx(enabled: bool, botToken: string, chatId: string)

  /** Everything checkAndNotify reads besides the subscriptions. */
  datatype Env = Env(
    settings: Settings,
    hour: int,
    nowDate: string,            // the date alreadyNotifiedToday compares against
    stampDate: string,          // the date handed to onNotified
    diffOf: string -> int,      // whole days from today to a `nextPayment`
    telegram: Option<TelegramCtx>,
    hasOnNotified: bool,
    priceText: Subscription -> string,  // the formatted price sent to Telegram
    numberText: real -> string,         // `String(price)` in the templates
    sendThrows: (string, string) -> bool)

  datatype Effect =
    | SystemNotice(title: string, body: string)
    | TelegramReminder(name: string, daysUntil: int, price: string)
    | MarkedNotified(subscriptionId: string, date: string)

  /** `{ sentCount, alerts }`, with the effects in the order they happen. */
  datatype Report = Report(sentCount: nat, alerts: seq<InAppAlert>, effects: seq<Effect>)

  const Quiet := Report(0, [], [])

  function Then(a: Report, b: Report): Report
  {
    Report(a.sentCount + b.sentCount, a.alerts + b.alerts, a.effects + b.effects)
  }

  function OrDefault(s: string, fallback: string): string
  {
    if s == "" then fallback else s
  }

  /** The effective days-before: the subscription's own when not negative. */
  function DaysBefore(sub: Subscription, settings: Settings): int
  {
    if sub.notifyDaysBefore >= 0 then sub.notifyDaysBefore else settings.notifyDaysBefore
  }

  predicate TelegramOn(env: Env)
  {
    env.telegram.Some? && env.telegram.value.enabled && env.telegram.value.botToken != "" && env.telegram.value.chatId != ""
  }

  /** shouldSendPush: inside the schedule and not yet notified today. */
  predicate ShouldSendPush(sub: Subscription, env: Env)
  {
    IsWithinSchedule(env.settings, env.hour) && !AlreadyNotifiedToday(sub.lastNotifiedDate, env.nowDate)
  }

  function Vars(sub: Subscription, days: int, env: Env): map<string, string>
  {
    map["name" := sub.name, "days" := IntToString(days), "price" := env.numberText(sub.price)]
  }

  function AlertFor(sub: Subscription, kind: AlertType, d: int): InAppAlert
  {
    InAppAlert(sub.id + "-" + AlertTypeName(kind), sub.id, sub.name, kind, d, sub.price, sub.currencyId)
  }

  /** One delivery: the system notification (counted unless it throws), the
      Telegram reminder when Telegram is on, and the onNotified stamp. */
  function Delivery(sub: Subscription, d: int, title: string, body: string, env: Env): Report
  {
    Report(if env.sendThrows(title, body) then 0 else 1, [],
      [SystemNotice(title, body)]
      + (if TelegramOn(env) then [TelegramReminder(sub.name, d, env.priceText(sub))] else [])
      + (if env.hasOnNotified then [MarkedNotified(sub.id, env.stampDate)] else []))
  }

  /** The upcoming / due-today branch for an active, notifying subscription. */
  function UpcomingPart(sub: Subscription, env: Env): Report
  {
    var d := env.diffOf(sub.nextPayment);
    var before := DaysBefore(sub, env.settings);
    if 0 <= d <= before then
      var kind := if d == 0 then DueToday else Upcoming;
      var send := if env.settings.recurringNotifications then ShouldSendPush(sub, env)
                  else ShouldSendPush(sub, env) && d == before;
      Then(Report(0, [AlertFor(sub, kind, d)], []), if send then UpcomingDelivery(sub, d, env) else Quiet)
    else Quiet
  }

  /** The delivery of an upcoming or due-today reminder. */
  function UpcomingDelivery(sub: Subscription, d: int, env: Env): Report
  {
    var title := OrDefault(env.settings.notificationTitle, DefaultTitle);
    var body := if d == 0 then ApplyTemplate(OrDefault(env.settings.notificationBodyDueToday, DefaultDueTodayBody), Vars(sub, d, env))
                else ApplyTemplate(OrDefault(env.settings.notificationBodyDueSoon, DefaultDueSoonBody), Vars(sub, d, env));
    Delivery(sub, d, title, body, env)
  }

  /** The overdue branch, for manual-renewal subscriptions past their date. */
  function OverduePart(sub: Subscription, env: Env): Report
  {
    var d := env.diffOf(sub.nextPayment);
    if !sub.autoRenew && d < 0 then
      var send := if env.settings.recurringNotifications then ShouldSendPush(sub, env)
                  else ShouldSendPush(sub, env) && !AlreadyNotifiedToday(sub.lastNotifiedDate, env.nowDate);
      Then(Report(0, [AlertFor(sub, Overdue, d)], []), if send then OverdueDelivery(sub, d, env) else Quiet)
    else Quiet
  }

  /** The delivery of an overdue reminder, with the days counted positive. */
  function OverdueDelivery(sub: Subscription, d: int, env: Env): Report
  {
    var title := OrDefault(env.settings.notificationOverdueTitle, DefaultOverdueTitle);
    var body := ApplyTemplate(OrDefault(env.settings.notificationOverdueBody, DefaultOverdueBody), Vars(sub, -d, env));
    Delivery(sub, d, title, body, env)
  }

  /** What one subscription contributes. */
  function SubReport(sub: Subscription, env: Env): Report
  {
    if sub.inactive || !sub.notify then Quiet else Then(UpcomingPart(sub, env), OverduePart(sub, env))
  }

  /** What checkAndNotify reports for a list, subscription by subscription. */
  function Run(subs: seq<Subscription>, env: Env): Report
  {
    if subs == [] then Quiet else Then(Run(subs[..|subs| - 1], env), SubReport(subs[|subs| - 1], env))
  }

  lemma RunStep(subs: seq<Subscription>, i: nat, env: Env)
    requires i < |subs|
    ensures Run(subs[..i + 1], env) == Then(Run(subs[..i], env), SubReport(subs[i], env))
  {
    assert subs[..i + 1][..i] == subs[..i];
  }

  /** checkAndNotify. */
  method CheckAndNotify(subs: seq<Subscription>, env: Env) returns (r: Report)
    ensures r == Run(subs, env)
  {
    var sentCount: nat := 0;
    var alerts: seq<InAppAlert> := [];
    var effects: seq<Effect> := [];
    var i := 0;
    while i < |subs|
      invariant 0 <= i <= |subs|
      invariant Report(sentCount, alerts, effects) == Run(subs[..i], env)
    {
      var sub := subs[i];
      RunStep(subs, i, env);
      if !sub.inactive && sub.notify {
        var u := UpcomingPart(sub, env);
        var o := OverduePart(sub, env);
        sentCount, alerts, effects := sentCount + (u.sentCount + o.sentCount), alerts + (u.alerts + o.alerts), effects + (u.effects + o.effects);
      } else {
        assert alerts + [] == alerts && effects + [] == effects;
      }
      i := i + 1;
    }
    assert subs[..i] == subs;
    r := Report(sentCount, alerts, effects);
  }

  // ---------------------------------------------------------------------
  // What checkAndNotify promises
  // ---------------------------------------------------------------------

  /** Inactive and silenced subscriptions produce nothing. */
  lemma SilentSubscription(sub: Subscription, env: Env)
    requires sub.inactive || !sub.notify
    ensures SubReport(sub, env).alerts == [] && SubReport(sub, env).effects == [] && SubReport(sub, env).sentCount == 0
  {
  }

  /** Each subscription yields at most one alert: an upcoming or due-today
      one exactly when 0 <= diffDays <= daysBefore (due today iff diffDays
      is 0), an overdue one exactly when it renews by hand and diffDays < 0;
      the alert's id is the subscription id and its type. */
  lemma AlertsOfSubscription(sub: Subscription, env: Env)
    requires !sub.inactive && sub.notify
    ensures var r := SubReport(sub, env); var d := env.diffOf(sub.nextPayment);
      && |r.alerts| <= 1
      && (|r.alerts| == 1 && r.alerts[0].kind != Overdue <==> 0 <= d <= DaysBefore(sub, env.settings))
      && (|r.alerts| == 1 && r.alerts[0].kind == DueToday <==> d == 0 && 0 <= DaysBefore(sub, env.settings))
      && (|r.alerts| == 1 && r.alerts[0].kind == Overdue <==> !sub.autoRenew && d < 0)
      && (|r.alerts| == 1 ==>
            r.alerts[0].id == sub.id + "-" + AlertTypeName(r.alerts[0].kind)
            && r.alerts[0].subscriptionId == sub.id && r.alerts[0].daysUntil == d)
  {
  }

  /** Outside the schedule, or once notified today, nothing is sent. */
  lemma QuietOutsideWindow(sub: Subscription, env: Env)
    requires !IsWithinSchedule(env.settings, env.hour) || AlreadyNotifiedToday(sub.lastNotifiedDate, env.nowDate)
    ensures SubReport(sub, env).effects == [] && SubReport(sub, env).sentCount == 0
  {
  }

  /** With non-recurring notifications, an upcoming payment is announced
      only on the exact days-before day. */
  lemma NonRecurringExactDay(sub: Subscription, env: Env)
    requires !env.settings.recurringNotifications
    requires env.diffOf(sub.nextPayment) >= 0
    requires SubReport(sub, env).effects != []
    ensures env.diffOf(sub.nextPayment) == DaysBefore(sub, env.settings)
  {
  }

  /** The system notifications of a run that did not throw. */
  function Successes(effects: seq<Effect>, env: Env): nat
  {
    if effects == [] then 0
    else
      Successes(effects[..|effects| - 1], env)
      + (var e := effects[|effects| - 1]; if e.SystemNotice? && !env.sendThrows(e.title, e.body) then 1 else 0)
  }

  lemma {:induction false} SuccessesAppend(a: seq<Effect>, b: seq<Effect>, env: Env)
    ensures Successes(a + b, env) == Successes(a, env) + Successes(b, env)
    decreases |b|
  {
    if b == [] {
      assert a + b == a;
    } else {
      assert (a + b)[..|a + b| - 1] == a + b[..|b| - 1];
      SuccessesAppend(a, b[..|b| - 1], env);
    }
  }

  lemma DeliverySuccesses(sub: Subscription, d: int, title: string, body: string, env: Env)
    ensures Delivery(sub, d, title, body, env).sentCount == Successes(Delivery(sub, d, title, body, env).effects, env)
  {
    var tg: seq<Effect> := if TelegramOn(env) then [TelegramReminder(sub.name, d, env.priceText(sub))] else [];
    var mk: seq<Effect> := if env.hasOnNotified then [MarkedNotified(sub.id, env.stampDate)] else [];
    assert Successes(tg, env) == 0;
    assert Successes(mk, env) == 0;
    SuccessesAppend(tg, mk, env);
    SuccessesAppend([SystemNotice(title, body)], tg + mk, env);
    assert [SystemNotice(title, body)] + tg + mk == [SystemNotice(title, body)] + (tg + mk);
  }

  lemma PartSuccesses(alert: InAppAlert, x: Report, env: Env)
    requires x.sentCount == Successes(x.effects, env)
    ensures Then(Report(0, [alert], []), x).sentCount == Successes(Then(Report(0, [alert], []), x).effects, env)
  {
    assert [] + x.effects == x.effects;
  }

  lemma UpcomingDeliveryCounted(sub: Subscription, d: int, env: Env)
    ensures UpcomingDelivery(sub, d, env).sentCount == Successes(UpcomingDelivery(sub, d, env).effects, env)
  {
    var title := OrDefault(env.settings.notificationTitle, DefaultTitle);
    var body := if d == 0 then ApplyTemplate(OrDefault(env.settings.notificationBodyDueToday, DefaultDueTodayBody), Vars(sub, d, env))
                else ApplyTemplate(OrDefault(env.settings.notificationBodyDueSoon, DefaultDueSoonBody), Vars(sub, d, env));
    DeliverySuccesses(sub, d, title, body, env);
  }

  lemma OverdueDeliveryCounted(sub: Subscription, d: int, env: Env)
    ensures OverdueDelivery(sub, d, env).sentCount == Successes(OverdueDelivery(sub, d, env).effects, env)
  {
    var title := OrDefault(env.settings.notificationOverdueTitle, DefaultOverdueTitle);
    var body := ApplyTemplate(OrDefault(env.settings.notificationOverdueBody, DefaultOverdueBody), Vars(sub, -d, env));
    DeliverySuccesses(sub, d, title, body, env);
  }

  lemma UpcomingSuccesses(sub: Subscription, env: Env)
    ensures UpcomingPart(sub, env).sentCount == Successes(UpcomingPart(sub, env).effects, env)
  {
    var d := env.diffOf(sub.nextPayment);
    if 0 <= d <= DaysBefore(sub, env.settings) {
      var before := DaysBefore(sub, env.settings);
      var send := if env.settings.recurringNotifications then ShouldSendPush(sub, env)
                  else ShouldSendPush(sub, env) && d == before;
      var alert := AlertFor(sub, if d == 0 then DueToday else Upcoming, d);
      if send {
        UpcomingDeliveryCounted(sub, d, env);
        PartSuccesses(alert, UpcomingDelivery(sub, d, env), env);
      } else {
        PartSuccesses(alert, Quiet, env);
      }
    }
  }

  lemma OverdueSuccesses(sub: Subscription, env: Env)
    ensures OverduePart(sub, env).sentCount == Successes(OverduePart(sub, env).effects, env)
  {
    var d := env.diffOf(sub.nextPayment);
    if !sub.autoRenew && d < 0 {
      var send := if env.settings.recurringNotifications then ShouldSendPush(sub, env)
                  else ShouldSendPush(sub, env) && !AlreadyNotifiedToday(sub.lastNotifiedDate, env.nowDate);
      var alert := AlertFor(sub, Overdue, d);
      if send {
        OverdueDeliveryCounted(sub, d, env);
        PartSuccesses(alert, OverdueDelivery(sub, d, env), env);
      } else {
        PartSuccesses(alert, Quiet, env);
      }
    }
  }

  lemma SubReportSuccesses(sub: Subscription, env: Env)
    ensures SubReport(sub, env).sentCount == Successes(SubReport(sub, env).effects, env)
  {
    if !sub.inactive && sub.notify {
      UpcomingSuccesses(sub, env);
      OverdueSuccesses(sub, env);
      SuccessesAppend(UpcomingPart(sub, env).effects, OverduePart(sub, env).effects, env);
    }
  }

  /** `sentCount` counts exactly the system notifications that did not throw. */
  lemma {:induction false} SentCountIsSuccesses(subs: seq<Subscription>, env: Env)
    ensures Run(subs, env).sentCount == Successes(Run(subs, env).effects, env)
  {
    if subs != [] {
      SentCountIsSuccesses(subs[..|subs| - 1], env);
      SubReportSuccesses(subs[|subs| - 1], env);
      SuccessesAppend(Run(subs[..|subs| - 1], env).effects, SubReport(subs[|subs| - 1], env).effects, env);
    }
  }

  /** Every alert of a run belongs to an active, notifying subscription. */
  lemma {:induction false} AlertsFromActive(subs: seq<Subscription>, env: Env)
    ensures forall a :: a in Run(subs, env).alerts ==>
      exists s :: s in subs && s.id == a.subscriptionId && !s.inactive && s.notify
  {
    if subs != [] {
      var front, last := subs[..|subs| - 1], subs[|subs| - 1];
      AlertsFromActive(front, env);
      forall a | a in Run(subs, env).alerts
        ensures exists s :: s in subs && s.id == a.subscriptionId && !s.inactive && s.notify
      {
        if a in Run(front, env).alerts {
          var s :| s in front && s.id == a.subscriptionId && !s.inactive && s.notify;
          assert s in subs;
        } else {
          assert a in SubReport(last, env).alerts;
          assert last in subs;
        }
      }
    }
  }

  // ---------------------------------------------------------------------
  // The date stamps
  // ---------------------------------------------------------------------

  /** The UTC day number of an instant given in minutes since the epoch. */
  function UtcDay(minutes: int): int
  {
    minutes / 1440
  }

  /** The two days checkAndNotify works with, for an instant `now` (UTC
      minutes since the epoch) in a time zone `offset` minutes ahead of UTC:
      alreadyNotifiedToday compares with the UTC date of `now`, while
      onNotified receives the UTC date of local midnight. */
  function StampDays(now: int, offset: int): (days: (int, int))
  {
    var local := now + offset;
    var localMidnight := (local / 1440) * 1440;
    (UtcDay(now), UtcDay(localMidnight - offset))
  }

  /** As written: at 10:00 in UTC+3 the stamp is the previous day. */
  lemma StampLagsEastOfUtc(day: nat)
    ensures var now := day * 1440 + 7 * 60;
      StampDays(now, 180).0 == day && StampDays(now, 180).1 == day - 1
  {
    var now := day * 1440 + 7 * 60;
    assert (now + 180) / 1440 == day;
    assert (day * 1440 - 180) / 1440 == day - 1;
  }

  /** As written: when the stamp differs from the compared date, a
      subscription delivered to in this run is delivered to again by the
      next run on the same day. */
  lemma SentAgainWhenStampLags(sub: Subscription, env: Env)
    requires env.stampDate != env.nowDate && env.hasOnNotified
    requires !sub.inactive && sub.notify && env.settings.recurringNotifications
    requires SubReport(sub, env).effects != []
    ensures SubReport(sub.(lastNotifiedDate := env.stampDate), env).effects != []
  {
  }

  /** Intended: stamping with the date the check compares against lets a
      subscription be delivered to at most once a day. */
  lemma NotifiedOncePerDay(sub: Subscription, env: Env)
    requires env.stampDate == env.nowDate && env.stampDate != ""
    requires MarkedNotified(sub.id, env.stampDate) in SubReport(sub, env).effects
    ensures SubReport(sub.(lastNotifiedDate := env.stampDate), env).effects == []
  {
  }
}
