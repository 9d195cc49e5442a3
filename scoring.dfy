/** The priority rules of the Outlook integration
    (integrations/outlook.py:222-317): the sender-weight table, its text form
    in `OUTLOOK_PRIORITY_SENDERS`, and the signals `_score_email` adds up. */
module OutlookScoring {
  import opened Wrappers
  import opened Text

  // ---------------------------------------------------------------------------
  // The sender-weight table: a Python dict, which keeps insertion order
  // ---------------------------------------------------------------------------

  /** Address or `@domain` rule paired with its weight, in insertion order. */
  type SenderTable = seq<(string, int)>

  predicate UniqueKeys(t: SenderTable) {
    forall i, j :: 0 <= i < j < |t| ==> t[i].0 != t[j].0
  }

  predicate HasKey(t: SenderTable, key: string) {
    exists i :: 0 <= i < |t| && t[i].0 == key
  }

  /** `t.get(key)` */
  function Lookup(t: SenderTable, key: string): Option<int> {
    if t == [] then None
    else if t[0].0 == key then Some(t[0].1)
    else Lookup(t[1..], key)
  }

  /** `t[key] = value` */
  function Put(t: SenderTable, key: string, value: int): SenderTable {
    if t == [] then [(key, value)]
    else if t[0].0 == key then [(key, value)] + t[1..]
    else [t[0]] + Put(t[1..], key, value)
  }

  /** A lookup finds a key exactly when the table has it, and in a table
      with distinct keys it finds that key's value. */
  lemma {:induction false} LookupSpec(t: SenderTable, key: string)
    ensures Lookup(t, key).None? <==> !HasKey(t, key)
    ensures UniqueKeys(t) ==> forall i :: 0 <= i < |t| && t[i].0 == key ==> Lookup(t, key) == Some(t[i].1)
  {
    if t != [] {
      LookupSpec(t[1..], key);
      assert forall i :: 1 <= i < |t| ==> t[i] == t[1..][i - 1];
    }
  }

  /** Assignment to a key: afterwards the key has the new value and every
      other key keeps its value. */
  lemma {:induction false} PutLookup(t: SenderTable, key: string, value: int)
    ensures Lookup(Put(t, key, value), key) == Some(value)
    ensures forall k :: k != key ==> Lookup(Put(t, key, value), k) == Lookup(t, k)
  {
    if t != [] && t[0].0 != key {
      PutLookup(t[1..], key, value);
      var r := Put(t, key, value);
      assert r[0] == t[0] && r[1..] == Put(t[1..], key, value);
    }
  }

  /** Assignment to a key already present keeps every key in its position; a
      new key goes last. */
  lemma {:induction false} PutPositions(t: SenderTable, key: string, value: int)
    ensures HasKey(t, key) ==>
              |Put(t, key, value)| == |t| && forall i :: 0 <= i < |t| ==> Put(t, key, value)[i].0 == t[i].0
    ensures !HasKey(t, key) ==> Put(t, key, value) == t + [(key, value)]
  {
    if t != [] && t[0].0 != key {
      PutPositions(t[1..], key, value);
      var r := Put(t, key, value);
      assert forall i :: 1 <= i < |t| ==> t[i] == t[1..][i - 1];
      assert r[0] == t[0] && r[1..] == Put(t[1..], key, value);
      assert HasKey(t, key) ==> HasKey(t[1..], key);
    }
  }

  /** Assignment keeps the keys distinct. */
  lemma PutUnique(t: SenderTable, key: string, value: int)
    requires UniqueKeys(t)
    ensures UniqueKeys(Put(t, key, value))
  {
    PutPositions(t, key, value);
  }

  // ---------------------------------------------------------------------------
  // `_match_sender_weight`
  // ---------------------------------------------------------------------------

  /** An `@`-prefixed rule that the sender address ends with. */
  predicate DomainRuleMatches(rule: string, sender: string) {
    StartsWith(rule, "@") && EndsWith(sender, rule)
  }

  /** Weight of the first `@`-rule, in table order, that the sender matches,
      or 0 when none does. */
  function FirstDomainWeight(t: SenderTable, sender: string): int {
    if t == [] then 0
    else if DomainRuleMatches(t[0].0, sender) then t[0].1
    else FirstDomainWeight(t[1..], sender)
  }

  /** The weight `_match_sender_weight` returns for a (lower-cased) sender. */
  function SenderWeight(t: SenderTable, sender: string): int {
    if t == [] then 0
    else match Lookup(t, sender)
      case Some(w) => if w != 0 then w else FirstDomainWeight(t, sender)
      case None => FirstDomainWeight(t, sender)
  }

  /** Rule `i` is the first `@`-rule of the table that the sender matches. */
  predicate IsFirstDomainMatch(t: SenderTable, sender: string, i: int) {
    && 0 <= i < |t|
    && DomainRuleMatches(t[i].0, sender)
    && forall j :: 0 <= j < i ==> !DomainRuleMatches(t[j].0, sender)
  }

  lemma {:induction false} FirstDomainWeightIsFirstMatch(t: SenderTable, sender: string, i: int)
    requires IsFirstDomainMatch(t, sender, i)
    ensures FirstDomainWeight(t, sender) == t[i].1
  {
    if i > 0 {
      assert !DomainRuleMatches(t[0].0, sender);
      FirstDomainWeightIsFirstMatch(t[1..], sender, i - 1);
    }
  }

  lemma {:induction false} FirstDomainWeightNoMatch(t: SenderTable, sender: string)
    requires forall j :: 0 <= j < |t| ==> !DomainRuleMatches(t[j].0, sender)
    ensures FirstDomainWeight(t, sender) == 0
  {
    if t != [] {
      assert !DomainRuleMatches(t[0].0, sender);
      FirstDomainWeightNoMatch(t[1..], sender);
    }
  }

  /** The lookup rules: an empty table gives 0; an exact key with a non-zero
      weight wins outright (its weight is never added to a domain weight);
      otherwise the first matching `@`-rule in table order decides; with no
      match at all the weight is 0. */
  lemma SenderWeightRules(t: SenderTable, sender: string)
    ensures t == [] ==> SenderWeight(t, sender) == 0
    ensures forall w :: Lookup(t, sender) == Some(w) && w != 0 ==> SenderWeight(t, sender) == w
    ensures forall i ::
              (Lookup(t, sender).None? || Lookup(t, sender) == Some(0)) && IsFirstDomainMatch(t, sender, i)
              ==> SenderWeight(t, sender) == t[i].1
    ensures (Lookup(t, sender).None? || Lookup(t, sender) == Some(0))
            && (forall j :: 0 <= j < |t| ==> !DomainRuleMatches(t[j].0, sender))
            ==> SenderWeight(t, sender) == 0
  {
    forall i | IsFirstDomainMatch(t, sender, i) ensures FirstDomainWeight(t, sender) == t[i].1 {
      FirstDomainWeightIsFirstMatch(t, sender, i);
    }
    if forall j :: 0 <= j < |t| ==> !DomainRuleMatches(t[j].0, sender) {
      FirstDomainWeightNoMatch(t, sender);
    }
  }

  // ---------------------------------------------------------------------------
  // `_load_priority_sender_weights`
  // ---------------------------------------------------------------------------

  /** Weight of an entry that has no `:weight` part or whose weight is not an
      integer. */
  const DefaultWeight: int := 3

  /** One comma-separated entry: `None` when it is blank or its address is
      empty, otherwise the lower-cased address and its weight. The entry is
      split at its first `:` only. */
  function ParseEntry(entry: string): Option<(string, int)> {
    var cleaned := Strip(entry);
    if cleaned == [] then None
    else
      var (sender, weight) := SplitEntry(cleaned);
      if sender == [] then None else Some((sender, weight))
  }

  /** A non-blank entry split at its first `:` into the lower-cased, trimmed
      address and the weight. */
  function SplitEntry(cleaned: string): (string, int) {
    match IndexOf(cleaned, ':')
    case Some(k) =>
      (Lower(Strip(cleaned[..k])), ParseInt(Strip(cleaned[k + 1..])).GetOr(DefaultWeight))
    case None => (Lower(cleaned), DefaultWeight)
  }

  /** Each entry parsed on its own. */
  function ParseEntries(entries: seq<string>): (ps: seq<Option<(string, int)>>)
    ensures |ps| == |entries|
    ensures forall j :: 0 <= j < |entries| ==> ps[j] == ParseEntry(entries[j])
  {
    seq(|entries|, j requires 0 <= j < |entries| => ParseEntry(entries[j]))
  }

  /** The table built by assigning the parsed entries in order; a later entry
      for the same address overwrites the value but not the position. */
  function Build(ps: seq<Option<(string, int)>>): SenderTable {
    if ps == [] then []
    else
      var t := Build(ps[..|ps| - 1]);
      match ps[|ps| - 1]
      case None => t
      case Some((k, w)) => Put(t, k, w)
  }

  function TableOf(entries: seq<string>): SenderTable {
    Build(ParseEntries(entries))
  }

  /** The table `_load_priority_sender_weights` returns for the variable's text. */
  function WeightTable(raw: string): SenderTable {
    if raw == [] then [] else TableOf(Split(raw, ','))
  }

  /** `_load_priority_sender_weights`, with the environment variable's value
      passed in. */
  method LoadPrioritySenderWeights(raw: string) returns (weights: SenderTable)
    ensures weights == WeightTable(raw)
  {
    weights := [];
    if raw == [] {
      return;
    }
    var entries := Split(raw, ',');
    ghost var ps := ParseEntries(entries);
    var i := 0;
    while i < |entries|
      invariant 0 <= i <= |entries|
      invariant weights == Build(ps[..i])
    {
      assert ps[..i + 1][..i] == ps[..i];
      var cleaned := Strip(entries[i]);
      if cleaned != [] {
        var sender: string, weight: int;
        var colon := IndexOf(cleaned, ':');
        if colon.Some? {
          sender := Lower(Strip(cleaned[..colon.value]));
          weight := ParseInt(Strip(cleaned[colon.value + 1..])).GetOr(DefaultWeight);
        } else {
          sender := Lower(cleaned);
          weight := DefaultWeight;
        }
        if sender != [] {
          weights := Put(weights, sender, weight);
        }
      }
      i := i + 1;
    }
    assert ps[..i] == ps;
  }

  /** A table key as the loader stores it: non-empty, lower-case, without
      surrounding whitespace and without a `:`. */
  predicate IsNormalKey(k: string) {
    k != [] && Lower(k) == k && Strip(k) == k && ':' !in k
  }

  lemma StripKeepsOut(s: string, c: char)
    requires c !in s
    ensures c !in Strip(s)
  {
    var l := TrimLeft(s);
    TrimLeftShape(s);
    assert forall j :: 0 <= j < |l| ==> l[j] == s[|s| - |l| + j];
    var r := TrimRight(l);
    TrimRightShape(l);
    assert forall j :: 0 <= j < |r| ==> r[j] == l[j];
  }

  lemma LowerOfTrimmed(y: string)
    requires y != [] && !IsSpace(y[0]) && !IsSpace(y[|y| - 1]) && ':' !in y
    ensures IsNormalKey(Lower(y))
  {
    LowerIdempotent(y);
    LowerKeepsSpace(y);
    StripUntouched(Lower(y));
    assert forall j :: 0 <= j < |y| ==> Lower(y)[j] == LowerChar(y[j]);
  }

  lemma KeyFromPrefix(x: string)
    requires ':' !in x
    ensures Lower(Strip(x)) != [] ==> IsNormalKey(Lower(Strip(x)))
  {
    var y := Strip(x);
    StripKeepsOut(x, ':');
    StripEmptyIff(x);
    if y != [] {
      LowerOfTrimmed(y);
    }
  }

  lemma SplitEntryKey(cleaned: string)
    requires cleaned != [] && !IsSpace(cleaned[0]) && !IsSpace(cleaned[|cleaned| - 1])
    ensures SplitEntry(cleaned).0 != [] ==> IsNormalKey(SplitEntry(cleaned).0)
  {
    match IndexOf(cleaned, ':')
    case Some(k) =>
      KeyFromPrefix(cleaned[..k]);
    case None =>
      LowerOfTrimmed(cleaned);
  }

  /** Every address the parser keeps is a normal key. */
  lemma ParseEntryKey(entry: string)
    requires ParseEntry(entry).Some?
    ensures IsNormalKey(ParseEntry(entry).value.0)
  {
    StripEmptyIff(entry);
    SplitEntryKey(Strip(entry));
  }

  /** The entry yields a key `k`. */
  predicate EntryFor(entry: string, k: string) {
    ParseEntry(entry).Some? && ParseEntry(entry).value.0 == k
  }

  /** Assigning keys that are all normal gives distinct, normal keys. */
  lemma {:induction false} BuildWellFormed(ps: seq<Option<(string, int)>>)
    requires forall j :: 0 <= j < |ps| && ps[j].Some? ==> IsNormalKey(ps[j].value.0)
    ensures UniqueKeys(Build(ps))
    ensures forall i :: 0 <= i < |Build(ps)| ==> IsNormalKey(Build(ps)[i].0)
  {
    if ps != [] {
      var prefix := ps[..|ps| - 1];
      BuildWellFormed(prefix);
      match ps[|ps| - 1]
      case None =>
      case Some((k, w)) =>
        PutUnique(Build(prefix), k, w);
        PutPositions(Build(prefix), k, w);
    }
  }

  /** The last assignment to a key decides its value. */
  lemma {:induction false} BuildLastWins(ps: seq<Option<(string, int)>>, k: string, w: int, i: int)
    requires 0 <= i < |ps| && ps[i] == Some((k, w))
    requires forall j :: i < j < |ps| ==> ps[j].None? || ps[j].value.0 != k
    ensures Lookup(Build(ps), k) == Some(w)
  {
    var n := |ps|;
    var prefix := ps[..n - 1];
    if i < n - 1 {
      BuildLastWins(prefix, k, w, i);
      match ps[n - 1]
      case None =>
      case Some((k2, w2)) =>
        PutLookup(Build(prefix), k2, w2);
    } else {
      PutLookup(Build(prefix), k, w);
    }
  }

  /** A key never assigned is absent. */
  lemma {:induction false} BuildNoEntry(ps: seq<Option<(string, int)>>, k: string)
    requires forall j :: 0 <= j < |ps| ==> ps[j].None? || ps[j].value.0 != k
    ensures Lookup(Build(ps), k) == None
  {
    if ps != [] {
      var prefix := ps[..|ps| - 1];
      BuildNoEntry(prefix, k);
      match ps[|ps| - 1]
      case None =>
      case Some((k2, w2)) =>
        PutLookup(Build(prefix), k2, w2);
    }
  }

  /** The loaded table has distinct keys, each of them normal. */
  lemma TableOfWellFormed(entries: seq<string>)
    ensures UniqueKeys(TableOf(entries))
    ensures forall i :: 0 <= i < |TableOf(entries)| ==> IsNormalKey(TableOf(entries)[i].0)
  {
    var ps := ParseEntries(entries);
    forall j | 0 <= j < |ps| && ps[j].Some? ensures IsNormalKey(ps[j].value.0) {
      ParseEntryKey(entries[j]);
    }
    BuildWellFormed(ps);
  }

  /** A repeated address takes the weight of its last entry. */
  lemma TableOfLastEntryWins(entries: seq<string>, k: string, i: int)
    requires 0 <= i < |entries| && EntryFor(entries[i], k)
    requires forall j :: i < j < |entries| ==> !EntryFor(entries[j], k)
    ensures Lookup(TableOf(entries), k) == Some(ParseEntry(entries[i]).value.1)
  {
    var ps := ParseEntries(entries);
    BuildLastWins(ps, k, ps[i].value.1, i);
  }

  /** An address no entry yields is not in the table. */
  lemma TableOfNoEntry(entries: seq<string>, k: string)
    requires forall j :: 0 <= j < |entries| ==> !EntryFor(entries[j], k)
    ensures Lookup(TableOf(entries), k) == None
  {
    BuildNoEntry(ParseEntries(entries), k);
  }

  // ---------------------------------------------------------------------------
  // The signals of `_score_email`
  // ---------------------------------------------------------------------------

  /** A rule that fired: its weight and the reason line it records. */
  datatype Signal = Signal(weight: int, reason: string)

  const NoSignalsReason: string := "No priority signals detected"
  const Hour: int := 3600
  const Day: int := 24 * Hour

  /** Importance "high" adds 3, "low" subtracts 1, anything else nothing; an
      empty importance reads as "normal". */
  function ImportanceSignal(importance: string): Option<Signal> {
    var level := Lower(if importance == [] then "normal" else importance);
    if level == "high" then Some(Signal(3, "Marked as high importance"))
    else if level == "low" then Some(Signal(-1, "Marked as low importance"))
    else None
  }

  /** The sender weight `_score_email` uses: 0 for an empty address, otherwise
      the table's weight for the lower-cased address. */
  function EffectiveSenderWeight(t: SenderTable, senderAddress: string): int {
    var normalized := Lower(senderAddress);
    if normalized == [] then 0 else SenderWeight(t, normalized)
  }

  function SenderSignal(weight: int): Option<Signal> {
    if weight != 0 then Some(Signal(weight, "Sender matches priority rules (+" + IntToString(weight) + ")"))
    else None
  }

  function FlagSignal(flagStatus: string): Option<Signal> {
    if flagStatus == "flagged" then Some(Signal(1, "Message is flagged for follow-up")) else None
  }

  /** The three due-date tiers; the first test is a strict `<`. */
  function DueSignal(due: Option<int>, now: int): Option<Signal> {
    match due
    case None => None
    case Some(d) =>
      if d < now then Some(Signal(3, "Flag due date has passed"))
      else if d <= now + Day then Some(Signal(2, "Flag due within 24 hours"))
      else if d <= now + 2 * Day then Some(Signal(1, "Flag due within 48 hours"))
      else None
  }

  /** Received at most four hours ago; a received time in the future counts. */
  function RecencySignal(received: Option<int>, now: int): Option<Signal> {
    match received
    case None => None
    case Some(r) => if now - r <= 4 * Hour then Some(Signal(1, "Received within the last 4 hours")) else None
  }

  /** The five rules in the order `_score_email` evaluates them. */
  function Signals(t: SenderTable, importance: string, senderAddress: string, flagStatus: string,
                   due: Option<int>, received: Option<int>, now: int): seq<Option<Signal>>
  {
    [ImportanceSignal(importance), SenderSignal(EffectiveSenderWeight(t, senderAddress)),
     FlagSignal(flagStatus), DueSignal(due, now), RecencySignal(received, now)]
  }

  /** The rules that fired, in order. */
  function Fired(signals: seq<Option<Signal>>): (r: seq<Signal>)
    ensures |r| <= |signals|
  {
    if signals == [] then []
    else (if signals[0].Some? then [signals[0].value] else []) + Fired(signals[1..])
  }

  function TotalWeight(fired: seq<Signal>): int {
    if fired == [] then 0 else fired[0].weight + TotalWeight(fired[1..])
  }

  /** The reasons of the fired rules, in order. */
  function ReasonsOf(fired: seq<Signal>): seq<string> {
    seq(|fired|, i requires 0 <= i < |fired| => fired[i].reason)
  }

  /** One reason per fired rule, or the single "no signals" line. */
  function ReasonLines(fired: seq<Signal>): (r: seq<string>)
    ensures r != []
  {
    if fired == [] then [NoSignalsReason] else ReasonsOf(fired)
  }

  /** The reason a rule contributes: its reason if it fired, else none. */
  function ReasonOf(o: Option<Signal>): seq<string> {
    if o.Some? then [o.value.reason] else []
  }

  /** The weight a rule contributes: its weight if it fired, else 0. */
  function WeightOf(o: Option<Signal>): int {
    if o.Some? then o.value.weight else 0
  }

  /** Evaluating one more rule appends its signal, if it fired, to the
      fired list. */
  lemma {:induction false} FiredSnoc(s: seq<Option<Signal>>, o: Option<Signal>)
    ensures Fired(s + [o]) == Fired(s) + (if o.Some? then [o.value] else [])
  {
    if s != [] {
      assert (s + [o])[1..] == s[1..] + [o];
      FiredSnoc(s[1..], o);
    } else {
      assert ([o])[1..] == [];
    }
  }

  lemma {:induction false} TotalWeightSnoc(fired: seq<Signal>, x: Signal)
    ensures TotalWeight(fired + [x]) == TotalWeight(fired) + x.weight
  {
    if fired != [] {
      assert (fired + [x])[1..] == fired[1..] + [x];
      TotalWeightSnoc(fired[1..], x);
    }
  }

  /** The running score and reason list of `_score_email` after it has
      evaluated the rules whose outcomes are `sigs`. */
  ghost predicate Tallied(score: int, reasons: seq<string>, sigs: seq<Option<Signal>>) {
    score == TotalWeight(Fired(sigs)) && reasons == ReasonsOf(Fired(sigs))
  }

  /** Evaluating one more rule adds its weight and appends its reason
      exactly when it fires. */
  lemma TallyStep(score: int, reasons: seq<string>, sigs: seq<Option<Signal>>, o: Option<Signal>)
    requires Tallied(score, reasons, sigs)
    ensures Tallied(score + WeightOf(o), reasons + ReasonOf(o), sigs + [o])
  {
    FiredSnoc(sigs, o);
    if o.Some? {
      TotalWeightSnoc(Fired(sigs), o.value);
    } else {
      assert Fired(sigs + [o]) == Fired(sigs);
    }
  }

  /** Once every rule is tallied, the score is the total weight and the
      reasons are the fired rules' reasons, or the "no signals" line when the
      tally is empty. */
  lemma TallyDone(score: int, reasons: seq<string>, sigs: seq<Option<Signal>>)
    requires Tallied(score, reasons, sigs)
    ensures score == TotalWeight(Fired(sigs))
    ensures (if reasons == [] then [NoSignalsReason] else reasons) == ReasonLines(Fired(sigs))
  {
    assert |reasons| == |Fired(sigs)|;
  }

  /** Tallying the five rules one after the other, starting from nothing,
      accounts for exactly the rules that fired. */
  lemma TallyFiveRules(a: Option<Signal>, b: Option<Signal>, c: Option<Signal>, d: Option<Signal>, e: Option<Signal>)
    ensures Tallied(WeightOf(a) + WeightOf(b) + WeightOf(c) + WeightOf(d) + WeightOf(e),
                    ReasonOf(a) + ReasonOf(b) + ReasonOf(c) + ReasonOf(d) + ReasonOf(e),
                    [a, b, c, d, e])
  {
    var s0: seq<Option<Signal>> := [];
    TallyStep(0, [], s0, a);
    assert s0 + [a] == [a] && [] + ReasonOf(a) == ReasonOf(a);
    TallyStep(WeightOf(a), ReasonOf(a), [a], b);
    assert [a] + [b] == [a, b];
    TallyStep(WeightOf(a) + WeightOf(b), ReasonOf(a) + ReasonOf(b), [a, b], c);
    assert [a, b] + [c] == [a, b, c];
    TallyStep(WeightOf(a) + WeightOf(b) + WeightOf(c), ReasonOf(a) + ReasonOf(b) + ReasonOf(c), [a, b, c], d);
    assert [a, b, c] + [d] == [a, b, c, d];
    TallyStep(WeightOf(a) + WeightOf(b) + WeightOf(c) + WeightOf(d),
              ReasonOf(a) + ReasonOf(b) + ReasonOf(c) + ReasonOf(d), [a, b, c, d], e);
    assert [a, b, c, d] + [e] == [a, b, c, d, e];
  }

  /** The score and reasons of five rules tallied in order: the total weight
      of the rules that fired and their reasons, or the "no signals" line
      when none fired. */
  lemma TallyFive(score: int, reasons: seq<string>,
                  a: Option<Signal>, b: Option<Signal>, c: Option<Signal>, d: Option<Signal>, e: Option<Signal>)
    requires score == WeightOf(a) + WeightOf(b) + WeightOf(c) + WeightOf(d) + WeightOf(e)
    requires reasons == ReasonOf(a) + ReasonOf(b) + ReasonOf(c) + ReasonOf(d) + ReasonOf(e)
    ensures score == TotalWeight(Fired([a, b, c, d, e]))
    ensures (if reasons == [] then [NoSignalsReason] else reasons) == ReasonLines(Fired([a, b, c, d, e]))
  {
    TallyFiveRules(a, b, c, d, e);
    TallyDone(score, reasons, [a, b, c, d, e]);
  }

  /** The score of an email is the sum of the five rules' contributions,
      and its reasons are theirs in rule order; a rule that does not fire
      contributes 0 and no reason. */
  lemma ScoreIsRuleSum(t: SenderTable, importance: string, senderAddress: string, flagStatus: string,
                       due: Option<int>, received: Option<int>, now: int)
    ensures var fired := Fired(Signals(t, importance, senderAddress, flagStatus, due, received, now));
            && TotalWeight(fired)
               == WeightOf(ImportanceSignal(importance)) + WeightOf(SenderSignal(EffectiveSenderWeight(t, senderAddress)))
                  + WeightOf(FlagSignal(flagStatus)) + WeightOf(DueSignal(due, now)) + WeightOf(RecencySignal(received, now))
            && ReasonsOf(fired)
               == ReasonOf(ImportanceSignal(importance)) + ReasonOf(SenderSignal(EffectiveSenderWeight(t, senderAddress)))
                  + ReasonOf(FlagSignal(flagStatus)) + ReasonOf(DueSignal(due, now)) + ReasonOf(RecencySignal(received, now))
  {
    TallyFiveRules(ImportanceSignal(importance), SenderSignal(EffectiveSenderWeight(t, senderAddress)),
                   FlagSignal(flagStatus), DueSignal(due, now), RecencySignal(received, now));
  }

  /** Due-date tiers are mutually exclusive and cover every parsed due time:
      overdue is strictly before now, a due time equal to now is in the
      24-hour tier. */
  lemma DueTiers(d: int, now: int)
    ensures WeightOf(DueSignal(Some(d), now)) == 3 <==> d < now
    ensures WeightOf(DueSignal(Some(d), now)) == 2 <==> now <= d <= now + Day
    ensures WeightOf(DueSignal(Some(d), now)) == 1 <==> now + Day < d <= now + 2 * Day
    ensures DueSignal(Some(d), now).None? <==> now + 2 * Day < d
    ensures DueSignal(None, now).None?
  {
  }

  /** A rule outcome whose reason, if it fired, is told apart from the
      "no signals" line by its first letter. */
  predicate DistinctReason(o: Option<Signal>) {
    o.Some? ==> o.value.reason != [] && o.value.reason[0] != NoSignalsReason[0]
  }

  lemma ImportanceReasonDistinct(importance: string)
    ensures DistinctReason(ImportanceSignal(importance))
  {
  }

  lemma SenderReasonDistinct(weight: int)
    ensures DistinctReason(SenderSignal(weight))
  {
    if weight != 0 {
      assert SenderSignal(weight).value.reason[0] == 'S';
    }
  }

  lemma FlagReasonDistinct(flagStatus: string)
    ensures DistinctReason(FlagSignal(flagStatus))
  {
  }

  lemma DueReasonDistinct(due: Option<int>, now: int)
    ensures DistinctReason(DueSignal(due, now))
  {
  }

  lemma RecencyReasonDistinct(received: Option<int>, now: int)
    ensures DistinctReason(RecencySignal(received, now))
  {
  }

  /** Every reason a rule records differs from the "no signals" line (its
      first letter already differs). */
  lemma SignalReasonsDiffer(t: SenderTable, importance: string, senderAddress: string, flagStatus: string,
                            due: Option<int>, received: Option<int>, now: int)
    ensures forall o :: o in Signals(t, importance, senderAddress, flagStatus, due, received, now)
              ==> DistinctReason(o)
  {
    ImportanceReasonDistinct(importance);
    SenderReasonDistinct(EffectiveSenderWeight(t, senderAddress));
    FlagReasonDistinct(flagStatus);
    DueReasonDistinct(due, now);
    RecencyReasonDistinct(received, now);
  }

  lemma {:induction false} FiredFrom(s: seq<Option<Signal>>)
    ensures forall x :: x in Fired(s) ==> Some(x) in s
  {
    if s != [] {
      FiredFrom(s[1..]);
    }
  }

  /** Reasons are never empty; the "no signals" line appears exactly when no
      rule fired, and otherwise there is one reason per fired rule. */
  lemma ReasonsShape(t: SenderTable, importance: string, senderAddress: string, flagStatus: string,
                     due: Option<int>, received: Option<int>, now: int)
    ensures var fired := Fired(Signals(t, importance, senderAddress, flagStatus, due, received, now));
            var reasons := ReasonLines(fired);
            && reasons != []
            && (fired == [] <==> reasons == [NoSignalsReason])
            && (fired != [] ==> |reasons| == |fired| && forall i :: 0 <= i < |fired| ==> reasons[i] == fired[i].reason)
  {
    var s := Signals(t, importance, senderAddress, flagStatus, due, received, now);
    var fired := Fired(s);
    if fired != [] {
      FiredFrom(s);
      SignalReasonsDiffer(t, importance, senderAddress, flagStatus, due, received, now);
      assert Some(fired[0]) in s;
      assert ReasonLines(fired)[0] == fired[0].reason;
    }
  }
}
