/** The free-tier message limit of components/subscription-guard.tsx: a
    per-day counter kept in the browser's local storage under
    `messages_<date>`, the mount-time check that reads it back, and the
    (empty) list of subscription-only paths. React state is an explicit
    record and local storage a map; the date is an input. */
module Guard {
  import opened Common

  /** Free messages per day before the upgrade dialog opens. */
  const MaxFreeMessages := 5

  /** Path prefixes that need a subscription: none. */
  const SubscriptionRequiredPaths: seq<string> := []

  /** A JavaScript number as the counter can hold it: an integer, or NaN
      (what `parseInt` yields for a string without leading digits). */
  datatype Num = Finite(n: int) | NaN

  /** `x + 1`; NaN stays NaN. */
  function Succ(x: Num): (r: Num)
    ensures r.NaN? <==> x.NaN?
    ensures x.Finite? ==> r.n == x.n + 1
  {
    match x
    case NaN => NaN
    case Finite(n) => Finite(n + 1)
  }

  /** `x >= k`; every comparison with NaN is false. */
  predicate AtLeast(x: Num, k: int) {
    x.Finite? && x.n >= k
  }

  predicate IsDigit(c: char) { '0' <= c <= '9' }

  function DigitChar(d: nat): (c: char)
    requires d < 10
    ensures IsDigit(c) && c as int - '0' as int == d
  {
    ['0', '1', '2', '3', '4', '5', '6', '7', '8', '9'][d]
  }

  /** The decimal digits of `n`, without leading zeros. */
  function DigitString(n: nat): (s: string)
    ensures |s| >= 1 && IsDigit(s[0])
    ensures forall i :: 0 <= i < |s| ==> IsDigit(s[i])
  {
    if n < 10 then [DigitChar(n)] else DigitString(n / 10) + [DigitChar(n % 10)]
  }

  /** `x.toString()` for an integer or NaN. */
  function NumToString(x: Num): (s: string)
    ensures s != ""
    ensures x.NaN? <==> s == "NaN"
    ensures x.Finite? && x.n >= 0 ==> forall i :: 0 <= i < |s| ==> IsDigit(s[i])
    ensures x.Finite? && x.n < 0 ==> s[0] == '-' && forall i :: 1 <= i < |s| ==> IsDigit(s[i])
  {
    match x
    case NaN => "NaN"
    case Finite(n) =>
      if n < 0 then
        var d := DigitString(-n);
        assert ("-" + d)[0] == '-';
        "-" + d
      else DigitString(n)
  }

  /** The whitespace `parseInt` skips (the ASCII part of it). */
  predicate IsSpace(c: char) {
    c == ' ' || c == '\t' || c == '\n' || c == '\r' || c == '\U{B}' || c == '\U{C}'
  }

  function TrimStart(s: string): (r: string)
    ensures |r| <= |s| && r == s[|s| - |r|..]
    ensures r != [] ==> !IsSpace(r[0])
  {
    if s != [] && IsSpace(s[0]) then TrimStart(s[1..]) else s
  }

  /** The length of the run of digits `s` starts with. */
  function DigitRun(s: string): (k: nat)
    ensures k <= |s|
    ensures forall i :: 0 <= i < k ==> IsDigit(s[i])
    ensures k < |s| ==> !IsDigit(s[k])
  {
    if s != [] && IsDigit(s[0]) then 1 + DigitRun(s[1..]) else 0
  }

  /** The value of a decimal digit. */
  function DigitValue(c: char): (d: nat)
    requires IsDigit(c)
    ensures d < 10
  {
    (c as int - '0' as int) as nat
  }

  /** The value of a string of decimal digits. */
  function DigitsValue(s: string): nat
    requires forall i :: 0 <= i < |s| ==> IsDigit(s[i])
  {
    if s == [] then 0 else DigitsValue(s[..|s| - 1]) * 10 + DigitValue(s[|s| - 1])
  }

  /** The number the longest run of leading digits stands for; NaN when
      there is none. */
  function ParseDigits(s: string): (r: Num)
    ensures r.Finite? ==> s != [] && IsDigit(s[0]) && r.n >= 0
  {
    var k := DigitRun(s);
    if k == 0 then NaN else Finite(DigitsValue(s[..k]))
  }

  /** An optional sign, then digits. */
  function ParseSigned(t: string): (r: Num)
    ensures r.Finite? ==> t != []
  {
    if t != [] && t[0] == '-' then
      match ParseDigits(t[1..])
      case NaN => NaN
      case Finite(v) => Finite(-v)
    else if t != [] && t[0] == '+' then ParseDigits(t[1..])
    else ParseDigits(t)
  }

  /** `parseInt(s, 10)`: leading whitespace, an optional sign, then the
      longest run of digits; NaN when there is no digit. */
  function ParseInt(s: string): (r: Num)
    ensures r.Finite? ==> exists i :: 0 <= i < |s| && IsDigit(s[i])
    // a value whose first non-blank character is a digit is a non-negative number
    ensures TrimStart(s) != [] && IsDigit(TrimStart(s)[0]) ==> r.Finite? && r.n >= 0
    // a negative result needs a minus sign first
    ensures r.Finite? && r.n < 0 ==> TrimStart(s) != [] && TrimStart(s)[0] == '-'
  {
    var t := TrimStart(s);
    var r := ParseSigned(t);
    if r.Finite? then
      if t[0] == '-' || t[0] == '+' then
        assert IsDigit(s[|s| - |t| + 1]);
        r
      else
        assert IsDigit(s[|s| - |t|]);
        r
    else r
  }

  /** Reading the digits of a number gives the number back. */
  lemma {:induction false} DigitsRoundTrip(n: nat)
    ensures ParseDigits(DigitString(n)) == Finite(n)
  {
    var s := DigitString(n);
    AllDigitsRun(s);
    assert s[..|s|] == s;
    DigitsValueRoundTrip(n);
  }

  lemma {:induction false} DigitsValueRoundTrip(n: nat)
    ensures DigitsValue(DigitString(n)) == n
  {
    if n >= 10 {
      var s := DigitString(n);
      DigitsValueRoundTrip(n / 10);
      assert s[..|s| - 1] == DigitString(n / 10);
    }
  }

  /** A string of digits is one run of digits. */
  lemma {:induction false} AllDigitsRun(s: string)
    requires forall i :: 0 <= i < |s| ==> IsDigit(s[i])
    ensures DigitRun(s) == |s|
  {
    if s != [] {
      AllDigitsRun(s[1..]);
    }
  }

  /** `parseInt(String(x), 10)` is `x`: the stored count reads back as it
      was written. */
  lemma ParseIntOfToString(x: Num)
    ensures ParseInt(NumToString(x)) == x
  {
    match x
    case NaN => ParseNaN();
    case Finite(n) =>
      if n < 0 {
        ParseNegative(-n);
      } else {
        ParseNonNegative(n);
      }
  }

  lemma ParseNaN()
    ensures ParseInt(NumToString(NaN)) == NaN
  {
    var s := "NaN";
    assert !IsSpace(s[0]) && !IsDigit(s[0]);
    assert TrimStart(s) == s;
    assert DigitRun(s) == 0;
  }

  lemma ParseNonNegative(n: nat)
    ensures ParseInt(NumToString(Finite(n))) == Finite(n)
  {
    var d := DigitString(n);
    assert !IsSpace(d[0]);
    assert TrimStart(d) == d;
    DigitsRoundTrip(n);
  }

  lemma ParseNegative(n: nat)
    requires n > 0
    ensures ParseInt(NumToString(Finite(-(n as int)))) == Finite(-(n as int))
  {
    var d := DigitString(n);
    var t := "-" + d;
    assert t[0] == '-' && !IsSpace(t[0]);
    assert TrimStart(t) == t;
    assert t[1..] == d;
    DigitsRoundTrip(n);
  }

  /** Local storage. */
  type Storage = map<string, string>

  /** The storage key of a day's count; `today` is the date part of the
      current ISO timestamp. */
  function CountKey(today: string): (k: string)
    ensures StartsWith(k, "messages_") && k[9..] == today
  {
    "messages_" + today
  }

  datatype GuardState = GuardState(messagesToday: Num, showUpgradeDialog: bool, storage: Storage)

  /** `requiresSubscription`: the path starts with a listed prefix. */
  predicate RequiresSubscription(path: string) {
    exists p :: p in SubscriptionRequiredPaths && StartsWith(path, p)
  }

  /** No path needs a subscription, so the guard never sends anyone to the
      pricing page. */
  lemma NoPathRequiresSubscription(path: string)
    ensures !RequiresSubscription(path)
  {
  }

  /** The count a day's stored value stands for: a missing or empty value is
      0, anything else is parsed. */
  function StoredCount(storage: Storage, today: string): (c: Num)
    ensures CountKey(today) !in storage ==> c == Finite(0)
    ensures CountKey(today) in storage && storage[CountKey(today)] == "" ==> c == Finite(0)
    ensures CountKey(today) in storage && storage[CountKey(today)] != "" ==> c == ParseInt(storage[CountKey(today)])
    // only a present value can make the count NaN
    ensures c.NaN? ==> CountKey(today) in storage && storage[CountKey(today)] != ""
  {
    var key := CountKey(today);
    if key in storage && storage[key] != "" then ParseInt(storage[key]) else Finite(0)
  }

  datatype Checked = Checked(state: GuardState, toPricing: bool)

  /** The effect run on mount and whenever the path or the subscription
      state changes: nothing while loading; on the home page an unsubscribed
      user's count is loaded and the dialog opened when it has reached the
      limit. */
  function MountCheck(s: GuardState, path: string, isSubscribed: bool, isLoading: bool, today: string): (r: Checked)
    ensures !r.toPricing
    ensures r.state.storage == s.storage
    ensures isLoading || path != "/" || isSubscribed ==> r.state == s
    ensures !isLoading && path == "/" && !isSubscribed ==>
      && r.state.messagesToday == StoredCount(s.storage, today)
      && (r.state.showUpgradeDialog <==> s.showUpgradeDialog || AtLeast(StoredCount(s.storage, today), MaxFreeMessages))
  {
    if isLoading then Checked(s, false)
    else
      var toPricing := RequiresSubscription(path) && !isSubscribed;
      if path == "/" && !isSubscribed then
        var count := StoredCount(s.storage, today);
        var s' := s.(messagesToday := count);
        Checked(if AtLeast(count, MaxFreeMessages) then s'.(showUpgradeDialog := true) else s', toPricing)
      else Checked(s, toPricing)
  }

  /** `incrementMessageCount`: nothing for a subscribed user; otherwise the
      count goes up by one, is stored under the day's key, and the dialog
      opens once the count reaches the limit. */
  function IncrementMessageCount(s: GuardState, isSubscribed: bool, today: string): (r: GuardState)
    ensures isSubscribed ==> r == s
    ensures !isSubscribed ==> r.messagesToday == Succ(s.messagesToday)
    ensures !isSubscribed ==> r.storage.Keys == s.storage.Keys + {CountKey(today)}
    ensures !isSubscribed ==> forall k :: k in s.storage && k != CountKey(today) ==> r.storage[k] == s.storage[k]
    ensures !isSubscribed ==> (r.showUpgradeDialog <==> s.showUpgradeDialog || AtLeast(Succ(s.messagesToday), MaxFreeMessages))
  {
    if isSubscribed then s
    else
      var count := Succ(s.messagesToday);
      var s' := GuardState(count, s.showUpgradeDialog, s.storage[CountKey(today) := NumToString(count)]);
      if AtLeast(count, MaxFreeMessages) then s'.(showUpgradeDialog := true) else s'
  }

  /** A counted message survives a reload: the home page's check the same
      day reads back exactly the incremented count. */
  lemma IncrementThenReload(s: GuardState, today: string)
    ensures var after := IncrementMessageCount(s, false, today);
            MountCheck(after, "/", false, false, today).state.messagesToday == Succ(s.messagesToday)
  {
    ParseIntOfToString(Succ(s.messagesToday));
  }

  /** Starting from no stored count, the dialog is closed through the first
      four messages of a day and open from the fifth. */
  lemma {:induction false} DialogOpensAtFifthMessage(s: GuardState, today: string, sent: nat)
    requires s.messagesToday == Finite(0) && !s.showUpgradeDialog
    ensures (Repeat(s, today, sent).showUpgradeDialog <==> sent >= MaxFreeMessages)
    ensures Repeat(s, today, sent).messagesToday == Finite(sent)
  {
    if sent > 0 {
      DialogOpensAtFifthMessage(s, today, sent - 1);
    }
  }

  /** `sent` messages of an unsubscribed user. */
  function Repeat(s: GuardState, today: string, sent: nat): GuardState {
    if sent == 0 then s else IncrementMessageCount(Repeat(s, today, sent - 1), false, today)
  }

  /** A value that starts with something other than whitespace, a sign or
      a digit (say, `NaN`, or text edited in by hand). */
  predicate NoLeadingDigits(v: string) {
    v != "" && !IsSpace(v[0]) && v[0] != '-' && v[0] != '+' && !IsDigit(v[0])
  }

  /** `parseInt` reads such a value as NaN. */
  lemma ParseNoLeadingDigits(v: string)
    requires NoLeadingDigits(v)
    ensures ParseInt(v) == NaN
  {
    assert TrimStart(v) == v;
    assert DigitRun(v) == 0;
  }

  /** A NaN count stays NaN, and the dialog stays closed, however many
      messages follow. */
  lemma {:induction false} NaNCountStaysClosed(s: GuardState, today: string, sent: nat)
    requires s.messagesToday == NaN && !s.showUpgradeDialog
    ensures Repeat(s, today, sent).messagesToday == NaN && !Repeat(s, today, sent).showUpgradeDialog
  {
    if sent > 0 {
      NaNCountStaysClosed(s, today, sent - 1);
    }
  }

  /** A stored value without leading digits makes the home page's check
      load a NaN count, and from then on the dialog never opens, however
      many messages follow. */
  lemma UnparseableCountNeverLimits(s: GuardState, today: string)
    requires CountKey(today) in s.storage && NoLeadingDigits(s.storage[CountKey(today)])
    requires !s.showUpgradeDialog
    ensures var loaded := MountCheck(s, "/", false, false, today).state;
            && loaded.messagesToday == NaN
            && !loaded.showUpgradeDialog
            && forall sent: nat :: Repeat(loaded, today, sent).messagesToday == NaN && !Repeat(loaded, today, sent).showUpgradeDialog
  {
    ParseNoLeadingDigits(s.storage[CountKey(today)]);
    var loaded := MountCheck(s, "/", false, false, today).state;
    forall sent: nat
      ensures Repeat(loaded, today, sent).messagesToday == NaN && !Repeat(loaded, today, sent).showUpgradeDialog
    {
      NaNCountStaysClosed(loaded, today, sent);
    }
  }
}
