/** Finding dedupe and the settled-finding rule (internal/crq/feedback.go). What the bots'
    wording means is a parameter, and a digest is taken to be the text it digests. */
module Findings {
  import opened Text
  import Reviewers

  datatype Finding = Finding(id: string, bot: string, severity: string, scale: string, category: string,
                             effort: string, path: string, line: int, title: string, body: string,
                             threadId: string, source: string)

  datatype Labels = Labels(category: string, severity: string, scale: string, effort: string)

  /** How the bots word things: the labels in a body, whether a title and body ask for
      anything, and the identity a bot keeps for a bug across threads. */
  datatype Dialect = Dialect(labels: (string, string) -> Labels, actionable: (string, string) -> bool,
                             stable: (string, string) -> Option<string>)

  /** strconv.Itoa. */
  function Itoa(n: int): string
    decreases if n < 0 then 1 - n else n
  {
    if n < 0 then "-" + Itoa(-n)
    else if n < 10 then [('0' as int + n) as char]
    else Itoa(n / 10) + [('0' as int + n % 10) as char]
  }

  function Or(a: string, b: string): string { if a != "" then a else b }

  /** A finding trimmed and labelled. */
  function Normal(d: Dialect, f: Finding): Finding {
    var body := Trim(f.body);
    var labels := d.labels(f.bot, body);
    f.(body := body, title := Trim(f.title), category := Or(labels.category, f.category),
       severity := Or(labels.severity, f.severity), scale := Or(labels.scale, f.scale),
       effort := Or(labels.effort, f.effort))
  }

  /** bot|path|line. */
  function Place(f: Finding): string { Reviewers.Key(f.bot) + "|" + f.path + "|" + Itoa(f.line) }

  /** The identity that supersedes where and how a finding is put. */
  function StableKey(d: Dialect, f: Finding): Option<string> {
    match d.stable(f.bot, f.body)
    case None => None
    case Some(stable) => Some(Reviewers.Key(f.bot) + "|" + stable)
  }

  function IdOf(d: Dialect, f: Finding): string {
    match StableKey(d, f)
    case Some(key) => key
    case None => Place(f) + "|" + f.title + "|" + f.body + "|" + f.threadId
  }

  const PROMPT := "review_prompt"

  predicate Structured(f: Finding) { f.source != PROMPT && f.path != "" && f.line > 0 }

  function StructuredPlaces(list: seq<Finding>): set<string> {
    set f | f in list && Structured(f) :: Place(f)
  }

  /** What the filters let through: places are those of structured findings, suppressed
      those of settled threads, settled the settled identities. */
  predicate Passes(d: Dialect, places: set<string>, suppressed: set<string>, settled: set<string>, f: Finding) {
    && d.actionable(f.title, f.body)
    && (f.source == PROMPT ==> Place(f) !in places && Place(f) !in suppressed)
    && (StableKey(d, f).Some? ==> StableKey(d, f).value !in settled)
  }

  function Ids(list: seq<Finding>): set<string> { set f | f in list :: f.id }

  /** The first of each identity, in order. */
  function Selected(d: Dialect, places: set<string>, suppressed: set<string>, settled: set<string>,
                    list: seq<Finding>): seq<Finding> {
    if list == [] then []
    else
      var rest := Selected(d, places, suppressed, settled, list[..|list| - 1]);
      var f := Normal(d, list[|list| - 1]);
      if Passes(d, places, suppressed, settled, f) && IdOf(d, f) !in Ids(rest) then rest + [f.(id := IdOf(d, f))]
      else rest
  }

  function Deduped(d: Dialect, list: seq<Finding>, suppressed: set<string>, settled: set<string>): seq<Finding> {
    Selected(d, StructuredPlaces(list), suppressed, settled, list)
  }

  /** dedupeFindings. */
  method DedupeFindings(d: Dialect, list: seq<Finding>, suppressed: set<string>, settled: set<string>)
    returns (out: seq<Finding>)
    ensures out == Deduped(d, list, suppressed, settled)
  {
    hide Trim, Reviewers.Key, Itoa;
    var seen: set<string> := {};
    var structuredAt: set<string> := {};
    for i := 0 to |list|
      invariant structuredAt == StructuredPlaces(list[..i])
    {
      PlacesSnoc(list, i);
      if list[i].source != PROMPT && list[i].path != "" && list[i].line > 0 {
        structuredAt := structuredAt + {Place(list[i])};
      }
    }
    assert list[..|list|] == list;
    out := [];
    for i := 0 to |list|
      invariant out == Selected(d, structuredAt, suppressed, settled, list[..i]) && seen == Ids(out)
    {
      SelectedSnoc(d, structuredAt, suppressed, settled, list, i);
      var f := Labelled(d, list[i]);
      if !d.actionable(f.title, f.body) {
        continue;
      }
      if f.source == PROMPT && (Place(f) in structuredAt || Place(f) in suppressed) {
        continue;
      }
      var key := Place(f) + "|" + f.title + "|" + f.body + "|" + f.threadId;
      var stable := d.stable(f.bot, f.body);
      if stable.Some? {
        if Reviewers.Key(f.bot) + "|" + stable.value in settled {
          continue;
        }
        key := Reviewers.Key(f.bot) + "|" + stable.value;
      }
      if key in seen {
        continue;
      }
      IdsSnoc(out, f.(id := key));
      seen := seen + {key};
      out := out + [f.(id := key)];
    }
  }

  /** A finding's title and body lose the white space around them, and whatever labels the bot
      put in the body stand for the finding's own; nothing else of it changes. */
  method Labelled(d: Dialect, finding: Finding) returns (f: Finding)
    ensures f == Normal(d, finding)
    ensures f.title == Trim(finding.title) && f.body == Trim(finding.body)
    ensures f.(title := finding.title, body := finding.body, category := finding.category,
               severity := finding.severity, scale := finding.scale, effort := finding.effort) == finding
    ensures var labels := d.labels(finding.bot, Trim(finding.body));
      && (if labels.category == "" then f.category == finding.category else f.category == labels.category)
      && (if labels.severity == "" then f.severity == finding.severity else f.severity == labels.severity)
      && (if labels.scale == "" then f.scale == finding.scale else f.scale == labels.scale)
      && (if labels.effort == "" then f.effort == finding.effort else f.effort == labels.effort)
  {
    f := finding.(body := Trim(finding.body), title := Trim(finding.title));
    var labels := d.labels(f.bot, f.body);
    if labels.category != "" {
      f := f.(category := labels.category);
    }
    if labels.severity != "" {
      f := f.(severity := labels.severity);
    }
    if labels.scale != "" {
      f := f.(scale := labels.scale);
    }
    if labels.effort != "" {
      f := f.(effort := labels.effort);
    }
  }

  lemma PlacesSnoc(list: seq<Finding>, i: nat)
    requires i < |list|
    ensures StructuredPlaces(list[..i + 1])
         == StructuredPlaces(list[..i]) + (if Structured(list[i]) then {Place(list[i])} else {})
  {
    hide Place;
    assert list[..i + 1] == list[..i] + [list[i]];
  }

  lemma SelectedSnoc(d: Dialect, places: set<string>, suppressed: set<string>, settled: set<string>,
                     list: seq<Finding>, i: nat)
    requires i < |list|
    ensures var rest, f := Selected(d, places, suppressed, settled, list[..i]), Normal(d, list[i]);
      Selected(d, places, suppressed, settled, list[..i + 1])
      == if Passes(d, places, suppressed, settled, f) && IdOf(d, f) !in Ids(rest) then rest + [f.(id := IdOf(d, f))]
         else rest
  {
    hide Passes, Normal, IdOf;
    assert list[..i + 1][..i] == list[..i];
  }

  lemma IdsSnoc(out: seq<Finding>, f: Finding)
    ensures Ids(out + [f]) == Ids(out) + {f.id}
  {
  }

  // ---- What comes out

  /** The findings of list that pass, stamped with their identity. */
  ghost predicate Candidate(d: Dialect, places: set<string>, suppressed: set<string>, settled: set<string>,
                            from: Finding, f: Finding) {
    var g := Normal(d, from);
    Passes(d, places, suppressed, settled, g) && f == g.(id := IdOf(d, g))
  }

  ghost predicate CandidateAt(d: Dialect, places: set<string>, suppressed: set<string>, settled: set<string>,
                              list: seq<Finding>,
                              i: nat, id: string)
    requires i < |list|
  {
    Passes(d, places, suppressed, settled, Normal(d, list[i])) && IdOf(d, Normal(d, list[i])) == id
  }

  ghost predicate Ascending(at: seq<nat>, bound: nat) {
    (forall k :: 0 <= k < |at| ==> at[k] < bound) && forall k, l :: 0 <= k < l < |at| ==> at[k] < at[l]
  }

  ghost predicate Stamped(d: Dialect, places: set<string>, suppressed: set<string>, settled: set<string>,
                          list: seq<Finding>,
                          out: seq<Finding>, at: seq<nat>) {
    |at| == |out| && forall k :: 0 <= k < |at| ==>
      at[k] < |list| && Candidate(d, places, suppressed, settled, list[at[k]], out[k])
  }

  ghost predicate NoneEarlier(d: Dialect, places: set<string>, suppressed: set<string>, settled: set<string>,
                              list: seq<Finding>,
                              out: seq<Finding>, at: seq<nat>) {
    |at| == |out| && forall k, i :: 0 <= k < |at| && 0 <= i < at[k] && i < |list| ==>
      !CandidateAt(d, places, suppressed, settled, list, i, out[k].id)
  }

  ghost predicate NoneMissed(d: Dialect, places: set<string>, suppressed: set<string>, settled: set<string>,
                             list: seq<Finding>,
                             out: seq<Finding>) {
    forall i :: 0 <= i < |list| && Passes(d, places, suppressed, settled, Normal(d, list[i]))
      ==> IdOf(d, Normal(d, list[i])) in Ids(out)
  }

  /** out lists, in input order, the first finding of each identity: at says where each
      one stood. */
  ghost predicate FirstOccurrences(d: Dialect, places: set<string>, suppressed: set<string>, settled: set<string>,
                                   list: seq<Finding>, out: seq<Finding>, at: seq<nat>) {
    && Ascending(at, |list|) && Stamped(d, places, suppressed, settled, list, out, at)
    && NoneEarlier(d, places, suppressed, settled, list, out, at)
    && NoneMissed(d, places, suppressed, settled, list, out)
  }

  ghost predicate DistinctIds(list: seq<Finding>) {
    forall k, l :: 0 <= k < l < |list| ==> list[k].id != list[l].id
  }

  lemma StampedSnoc(d: Dialect, places: set<string>, suppressed: set<string>, settled: set<string>, init: seq<Finding>,
                    from: Finding, rest: seq<Finding>, at: seq<nat>, f: Finding)
    requires Stamped(d, places, suppressed, settled, init, rest, at)
    requires Candidate(d, places, suppressed, settled, from, f)
    ensures Stamped(d, places, suppressed, settled, init + [from], rest + [f], at + [|init|])
  {
    hide Candidate;
  }

  lemma AscendingSnoc(at: seq<nat>, bound: nat)
    requires Ascending(at, bound)
    ensures Ascending(at, bound + 1) && Ascending(at + [bound], bound + 1)
  {
  }

  lemma NoneEarlierSnoc(d: Dialect, places: set<string>, suppressed: set<string>, settled: set<string>,
                        init: seq<Finding>,
                        from: Finding, rest: seq<Finding>, at: seq<nat>, f: Finding)
    requires NoneEarlier(d, places, suppressed, settled, init, rest, at) && Ascending(at, |init|)
    requires NoneMissed(d, places, suppressed, settled, init, rest) && f.id !in Ids(rest)
    ensures NoneEarlier(d, places, suppressed, settled, init + [from], rest + [f], at + [|init|])
  {
    hide Passes, Normal, IdOf;
    var list, out, where := init + [from], rest + [f], at + [|init|];
    forall k, i | 0 <= k < |where| && 0 <= i < where[k] && i < |list|
      ensures !CandidateAt(d, places, suppressed, settled, list, i, out[k].id)
    {
      assert list[i] == init[i];
      if k < |at| {
        assert !CandidateAt(d, places, suppressed, settled, init, i, rest[k].id);
      }
    }
  }

  lemma NoneEarlierStays(d: Dialect, places: set<string>, suppressed: set<string>, settled: set<string>,
                         init: seq<Finding>,
                         from: Finding, rest: seq<Finding>, at: seq<nat>)
    requires NoneEarlier(d, places, suppressed, settled, init, rest, at) && Ascending(at, |init|)
    ensures NoneEarlier(d, places, suppressed, settled, init + [from], rest, at)
  {
    hide Passes, Normal, IdOf;
    var list := init + [from];
    forall k, i | 0 <= k < |at| && 0 <= i < at[k] && i < |list|
      ensures !CandidateAt(d, places, suppressed, settled, list, i, rest[k].id)
    {
      assert list[i] == init[i] && !CandidateAt(d, places, suppressed, settled, init, i, rest[k].id);
    }
  }

  lemma NoneMissedSnoc(d: Dialect, places: set<string>, suppressed: set<string>, settled: set<string>,
                       init: seq<Finding>,
                       from: Finding, rest: seq<Finding>, out: seq<Finding>)
    requires NoneMissed(d, places, suppressed, settled, init, rest) && Ids(rest) <= Ids(out)
    requires Passes(d, places, suppressed, settled, Normal(d, from)) ==> IdOf(d, Normal(d, from)) in Ids(out)
    ensures NoneMissed(d, places, suppressed, settled, init + [from], out)
  {
    hide Passes, Normal, IdOf, Ids;
  }

  lemma DistinctSnoc(rest: seq<Finding>, f: Finding)
    requires DistinctIds(rest) && f.id !in Ids(rest)
    ensures DistinctIds(rest + [f])
  {
    assert forall k :: 0 <= k < |rest| ==> rest[k].id in Ids(rest);
  }

  lemma FirstTaken(d: Dialect, places: set<string>, suppressed: set<string>, settled: set<string>, init: seq<Finding>,
                   from: Finding, rest: seq<Finding>, at: seq<nat>)
    requires FirstOccurrences(d, places, suppressed, settled, init, rest, at) && DistinctIds(rest)
    requires Passes(d, places, suppressed, settled, Normal(d, from)) && IdOf(d, Normal(d, from)) !in Ids(rest)
    ensures var f := Normal(d, from).(id := IdOf(d, Normal(d, from)));
      FirstOccurrences(d, places, suppressed, settled, init + [from], rest + [f], at + [|init|])
      && DistinctIds(rest + [f])
  {
    var f := Normal(d, from).(id := IdOf(d, Normal(d, from)));
    assert Candidate(d, places, suppressed, settled, from, f);
    hide Passes, Normal, IdOf, Candidate, Stamped, Ascending, NoneEarlier, NoneMissed, DistinctIds;
    IdsSnoc(rest, f);
    StampedSnoc(d, places, suppressed, settled, init, from, rest, at, f);
    AscendingSnoc(at, |init|);
    NoneEarlierSnoc(d, places, suppressed, settled, init, from, rest, at, f);
    NoneMissedSnoc(d, places, suppressed, settled, init, from, rest, rest + [f]);
    DistinctSnoc(rest, f);
  }

  lemma FirstSkipped(d: Dialect, places: set<string>, suppressed: set<string>, settled: set<string>, init: seq<Finding>,
                     from: Finding, rest: seq<Finding>, at: seq<nat>)
    requires FirstOccurrences(d, places, suppressed, settled, init, rest, at)
    requires Passes(d, places, suppressed, settled, Normal(d, from)) ==> IdOf(d, Normal(d, from)) in Ids(rest)
    ensures FirstOccurrences(d, places, suppressed, settled, init + [from], rest, at)
  {
    hide Passes, Normal, IdOf, Candidate, NoneEarlier, NoneMissed;
    AscendingSnoc(at, |init|);
    NoneEarlierStays(d, places, suppressed, settled, init, from, rest, at);
    NoneMissedSnoc(d, places, suppressed, settled, init, from, rest, rest);
  }

  lemma {:induction false} SelectedIsFirst(d: Dialect, places: set<string>, suppressed: set<string>,
                                           settled: set<string>,
                                           list: seq<Finding>) returns (at: seq<nat>)
    ensures var out := Selected(d, places, suppressed, settled, list);
      FirstOccurrences(d, places, suppressed, settled, list, out, at) && DistinctIds(out)
  {
    hide Passes, Normal, IdOf;
    if list == [] {
      at := [];
    } else {
      hide FirstOccurrences, DistinctIds;
      var init, last := list[..|list| - 1], Normal(d, list[|list| - 1]);
      var rest := Selected(d, places, suppressed, settled, init);
      at := SelectedIsFirst(d, places, suppressed, settled, init);
      assert list == init + [list[|list| - 1]];
      if Passes(d, places, suppressed, settled, last) && IdOf(d, last) !in Ids(rest) {
        FirstTaken(d, places, suppressed, settled, init, list[|list| - 1], rest, at);
        at := at + [|list| - 1];
      } else {
        FirstSkipped(d, places, suppressed, settled, init, list[|list| - 1], rest, at);
      }
    }
  }

  /** The output has distinct identities, keeps the first of each, in input order, and
      misses none that passes. */
  lemma DedupedExactly(d: Dialect, list: seq<Finding>, suppressed: set<string>,
                       settled: set<string>) returns (at: seq<nat>)
    ensures var out := Deduped(d, list, suppressed, settled);
      DistinctIds(out) && FirstOccurrences(d, StructuredPlaces(list), suppressed, settled, list, out, at)
  {
    hide FirstOccurrences, DistinctIds, Selected;
    at := SelectedIsFirst(d, StructuredPlaces(list), suppressed, settled, list);
  }

  /** A finding of this place that no prompt made. */
  ghost predicate StructuredAt(list: seq<Finding>, place: string) {
    exists g :: g in list && g.source != "review_prompt" && g.path != "" && g.line > 0
      && Reviewers.Key(g.bot) + "|" + g.path + "|" + Itoa(g.line) == place
  }

  /** Whatever comes out asks for something, and carries the identity its bot keeps for the
      bug, which is not settled, or else one made of where and how it is put. */
  lemma SurvivorsExactly(d: Dialect, list: seq<Finding>, suppressed: set<string>, settled: set<string>, f: Finding)
    requires f in Deduped(d, list, suppressed, settled)
    ensures d.actionable(f.title, f.body) && f.title == Trim(f.title) && f.body == Trim(f.body)
    ensures match d.stable(f.bot, f.body)
      case Some(key) => f.id == Reviewers.Key(f.bot) + "|" + key && Reviewers.Key(f.bot) + "|" + key !in settled
      case None =>
        f.id == Reviewers.Key(f.bot) + "|" + f.path + "|" + Itoa(f.line) + "|" + f.title + "|" + f.body + "|"
                + f.threadId
    ensures f.source == "review_prompt" ==>
      var place := Reviewers.Key(f.bot) + "|" + f.path + "|" + Itoa(f.line);
      place !in suppressed && !StructuredAt(list, place)
  {
    hide Trim, Reviewers.Key, Itoa, Selected;
    var at := DedupedExactly(d, list, suppressed, settled);
    var out := Deduped(d, list, suppressed, settled);
    var k :| 0 <= k < |out| && out[k] == f;
    var from := list[at[k]];
    assert Candidate(d, StructuredPlaces(list), suppressed, settled, from, out[k]);
    TrimIdempotent(from.body);
    TrimIdempotent(from.title);
    hide IdOf, StableKey;
    assert f.source == PROMPT ==> Place(f) !in StructuredPlaces(list);
  }

  /** A finding is lost only when it asks for nothing, when it is a prompt's and its place has
      a structured finding or a settled thread, or when its bot's identity for it is settled. */
  lemma NothingElseLost(d: Dialect, list: seq<Finding>, suppressed: set<string>, settled: set<string>, i: nat)
    requires i < |list|
    ensures var f, place := list[i], Reviewers.Key(list[i].bot) + "|" + list[i].path + "|" + Itoa(list[i].line);
      var title, body := Trim(f.title), Trim(f.body);
      var key := d.stable(f.bot, body);
      && d.actionable(title, body)
      && (f.source == "review_prompt" ==> !StructuredAt(list, place) && place !in suppressed)
      && (key.Some? ==> Reviewers.Key(f.bot) + "|" + key.value !in settled)
      ==>
      exists kept :: kept in Deduped(d, list, suppressed, settled)
        && kept.id == if key.Some? then Reviewers.Key(f.bot) + "|" + key.value
                      else place + "|" + title + "|" + body + "|" + f.threadId
  {
    hide Trim, Reviewers.Key, Itoa, Selected;
    var f, out := list[i], Deduped(d, list, suppressed, settled);
    var at := DedupedExactly(d, list, suppressed, settled);
    var g := Normal(d, f);
    assert Place(g) == Place(f) && StableKey(d, g) == match d.stable(f.bot, Trim(f.body))
      case None => None
      case Some(key) => Some(Reviewers.Key(f.bot) + "|" + key);
    if Passes(d, StructuredPlaces(list), suppressed, settled, g) {
      assert IdOf(d, g) in Ids(out);
      var kept :| kept in out && kept.id == IdOf(d, g);
    } else if f.source == PROMPT && Place(f) in StructuredPlaces(list) {
      var s :| s in list && Structured(s) && Place(s) == Place(f);
    }
  }

  /** A prompt's finding never comes out beside a structured finding at its place, nor
      where a thread was settled. */
  lemma NoPromptShadows(d: Dialect, list: seq<Finding>, suppressed: set<string>, settled: set<string>, p: Finding,
                        s: Finding)
    requires p in Deduped(d, list, suppressed, settled) && p.source == PROMPT
    ensures Place(p) !in suppressed
    ensures s in list && Structured(s) ==>
      !(Reviewers.SameBot(s.bot, p.bot) && s.path == p.path && s.line == p.line)
  {
    hide Trim, Reviewers.Key, Itoa, Selected;
    var at := DedupedExactly(d, list, suppressed, settled);
    var out := Deduped(d, list, suppressed, settled);
    var k :| 0 <= k < |out| && out[k] == p;
    assert Candidate(d, StructuredPlaces(list), suppressed, settled, list[at[k]], out[k]);
    if s in list && Structured(s) {
      assert Place(s) in StructuredPlaces(list);
    }
  }

  // ---- Twice is once

  lemma NormalTwice(d: Dialect, f: Finding, id: string)
    ensures var g := Normal(d, f).(id := id); Normal(d, g) == g
  {
    TrimIdempotent(f.body);
    TrimIdempotent(f.title);
    hide Trim;
  }

  /** A finding that came out is unchanged and passes again. */
  predicate Settled(d: Dialect, places: set<string>, suppressed: set<string>, settled: set<string>, f: Finding) {
    Normal(d, f) == f && Passes(d, places, suppressed, settled, f) && IdOf(d, f) == f.id
  }

  lemma {:induction false} SelectedAll(d: Dialect, places: set<string>, suppressed: set<string>,
                                       settled: set<string>, list: seq<Finding>)
    requires DistinctIds(list) && forall f :: f in list ==> Settled(d, places, suppressed, settled, f)
    ensures Selected(d, places, suppressed, settled, list) == list
  {
    hide Passes, Normal, IdOf;
    if list != [] {
      var init, last := list[..|list| - 1], list[|list| - 1];
      assert list == init + [last];
      SelectedAll(d, places, suppressed, settled, init);
      assert last in list && Settled(d, places, suppressed, settled, last);
      assert forall f :: f in init ==> f.id != last.id;
      assert last.(id := last.id) == last;
    }
  }

  lemma StampedSettled(d: Dialect, places: set<string>, fewer: set<string>, suppressed: set<string>,
                       settled: set<string>, from: Finding,
                       f: Finding)
    requires Candidate(d, places, suppressed, settled, from, f) && fewer <= places
    ensures Settled(d, fewer, suppressed, settled, f)
  {
    NormalTwice(d, from, f.id);
    hide Trim, Reviewers.Key, Itoa, Normal;
  }

  /** Deduping what was deduped changes nothing. */
  lemma DedupeIdempotent(d: Dialect, list: seq<Finding>, suppressed: set<string>, settled: set<string>)
    ensures var out := Deduped(d, list, suppressed, settled); Deduped(d, out, suppressed, settled) == out
  {
    hide Trim, Normal, Passes, IdOf, Selected, Place;
    var out, places := Deduped(d, list, suppressed, settled), StructuredPlaces(list);
    var at := DedupedExactly(d, list, suppressed, settled);
    forall f | f in out && Structured(f) ensures Place(f) in places {
      var k :| 0 <= k < |out| && out[k] == f;
      assert Candidate(d, places, suppressed, settled, list[at[k]], out[k]);
      SamePlace(d, list[at[k]], f);
    }
    var fewer := StructuredPlaces(out);
    forall f | f in out ensures Settled(d, fewer, suppressed, settled, f) {
      var k :| 0 <= k < |out| && out[k] == f;
      assert Candidate(d, places, suppressed, settled, list[at[k]], out[k]);
      StampedSettled(d, places, fewer, suppressed, settled, list[at[k]], f);
    }
    SelectedAll(d, fewer, suppressed, settled, out);
  }

  lemma SamePlace(d: Dialect, from: Finding, f: Finding)
    requires f == Normal(d, from).(id := f.id)
    ensures Place(f) == Place(from) && (Structured(f) <==> Structured(from))
  {
    hide Trim, Reviewers.Key, Itoa;
  }

  // ---- Which findings share an identity

  /** What tells findings apart at one place and in one thread. */
  function Wording(f: Finding): string { f.title + "|" + f.body }

  /** g stands where f does, is put differently, and has its identity. */
  ghost predicate Rival(d: Dialect, f: Finding, g: Finding) {
    && g.bot == f.bot && g.path == f.path && g.line == f.line && g.threadId == f.threadId
    && (g.title != f.title || g.body != f.body)
    && StableKey(d, g).None? && IdOf(d, g) == IdOf(d, f)
  }

  /** The wording also reads as another title and a body without a key of its own. */
  ghost predicate ReadsElsewhere(d: Dialect, f: Finding, i: nat) {
    && i < |Wording(f)| && Wording(f)[i] == '|' && i != |f.title|
    && d.stable(f.bot, Wording(f)[i + 1..]).None?
  }

  lemma Cancel(p: string, x: string, y: string, s: string)
    requires p + x + s == p + y + s
    ensures x == y
  {
    assert |x| == |y|;
    assert (p + x + s)[|p|..|p| + |x|] == x && (p + y + s)[|p|..|p| + |y|] == y;
  }

  lemma WordedIdentity(d: Dialect, f: Finding)
    requires StableKey(d, f).None?
    ensures IdOf(d, f) == (Place(f) + "|") + Wording(f) + ("|" + f.threadId)
  {
    hide Place;
    var place, t, b, n := Place(f), f.title, f.body, f.threadId;
    assert place + "|" + t + "|" + b + "|" + n == (place + "|") + (t + "|" + b) + ("|" + n);
  }

  lemma SplitAtBar(f: Finding, i: nat)
    requires i < |Wording(f)| && Wording(f)[i] == '|'
    ensures Wording(f) == Wording(f)[..i] + "|" + Wording(f)[i + 1..]
  {
  }

  /** Two findings at one place share an identity exactly when they have one wording. */
  lemma SameWording(d: Dialect, f: Finding, g: Finding)
    requires StableKey(d, f).None? && StableKey(d, g).None?
    requires g.bot == f.bot && g.path == f.path && g.line == f.line && g.threadId == f.threadId
    ensures IdOf(d, g) == IdOf(d, f) <==> Wording(g) == Wording(f)
  {
    WordedIdentity(d, f);
    WordedIdentity(d, g);
    hide Itoa, Reviewers.Key, Wording, IdOf, StableKey;
    assert Place(g) == Place(f);
    hide Place;
    if IdOf(d, g) == IdOf(d, f) {
      Cancel(Place(f) + "|", Wording(g), Wording(f), "|" + f.threadId);
    }
  }

  /** A finding without a key of its own shares its identity with another at its place
      exactly when its title and body also read as another title and body. */
  lemma SharedExactly(d: Dialect, f: Finding)
    requires StableKey(d, f).None?
    ensures (exists g :: Rival(d, f, g)) <==> exists i :: ReadsElsewhere(d, f, i)
  {
    hide Itoa, Reviewers.Key, IdOf, Place;
    if i: nat :| ReadsElsewhere(d, f, i) {
      var g := f.(title := Wording(f)[..i], body := Wording(f)[i + 1..]);
      SplitAtBar(f, i);
      SameWording(d, f, g);
      assert Rival(d, f, g);
    }
    if g :| Rival(d, f, g) {
      SameWording(d, f, g);
      var i := |g.title|;
      assert Wording(g)[i] == '|' && Wording(g)[i + 1..] == g.body && Wording(g)[..i] == g.title;
      assert Wording(f)[..|f.title|] == f.title && Wording(f)[|f.title| + 1..] == f.body;
      assert ReadsElsewhere(d, f, i);
    }
  }

  lemma BarAt(f: Finding, i: nat)
    requires i < |Wording(f)| && Wording(f)[i] == '|' && i != |f.title|
    ensures '|' in f.title || '|' in f.body
  {
    if i < |f.title| {
      assert f.title[i] == '|';
    } else {
      assert f.body[i - |f.title| - 1] == '|';
    }
  }

  lemma BarIn(f: Finding) returns (i: nat)
    requires '|' in f.title || '|' in f.body
    ensures i < |Wording(f)| && Wording(f)[i] == '|' && i != |f.title|
  {
    if '|' in f.title {
      i :| i < |f.title| && f.title[i] == '|';
    } else {
      i :| i < |f.body| && f.body[i] == '|';
      i := |f.title| + 1 + i;
    }
  }

  /** Of a bot that keeps no keys, a finding has its identity to itself exactly when
      neither its title nor its body has a bar. */
  lemma OwnIdentityExactly(d: Dialect, f: Finding)
    requires forall body :: d.stable(f.bot, body).None?
    ensures (forall g :: !Rival(d, f, g)) <==> '|' !in f.title && '|' !in f.body
  {
    SharedExactly(d, f);
    hide Rival, Wording;
    if '|' in f.title || '|' in f.body {
      var i := BarIn(f);
      assert ReadsElsewhere(d, f, i);
    } else {
      forall i | ReadsElsewhere(d, f, i) ensures false {
        BarAt(f, i);
      }
    }
  }

  /** Two findings that differ in title and body, and share an identity. */
  lemma IdentitiesCollide(d: Dialect, f: Finding)
    requires d.stable(f.bot, "c").None? && d.stable(f.bot, "b|c").None?
    ensures Rival(d, f.(title := "a|b", body := "c"), f.(title := "a", body := "b|c"))
  {
    var g, h := f.(title := "a|b", body := "c"), f.(title := "a", body := "b|c");
    SameWording(d, g, h);
    hide IdOf;
    assert "a|b" + "|" + "c" == "a" + "|" + "b|c";
  }

  /** Of two rivals the second is dropped. */
  lemma RivalDropped(d: Dialect, f: Finding, g: Finding, suppressed: set<string>, settled: set<string>)
    requires Rival(d, f, g) && Normal(d, f) == f && Normal(d, g) == g
    requires Passes(d, StructuredPlaces([f, g]), suppressed, settled, f)
    ensures Deduped(d, [f, g], suppressed, settled) == [f.(id := IdOf(d, f))]
  {
    hide Passes, Normal, IdOf, StructuredPlaces;
    var places := StructuredPlaces([f, g]);
    assert [f, g][..0] == [] && [f, g][..1] == [f] && [f, g][..2] == [f, g];
    SelectedSnoc(d, places, suppressed, settled, [f, g], 0);
    SelectedSnoc(d, places, suppressed, settled, [f, g], 1);
    assert Selected(d, places, suppressed, settled, [f, g][..1]) == [f.(id := IdOf(d, f))];
    assert IdOf(d, f) in Ids([f.(id := IdOf(d, f))]);
  }

  // ---- Across places, titles and threads

  lemma LeadingPart(a: string, x: string, b: string, y: string)
    requires '|' !in a && '|' !in b && a + "|" + x == b + "|" + y
    ensures a == b && x == y
  {
    var s := a + "|" + x;
    assert forall i :: 0 <= i < |a| ==> s[i] == a[i];
    assert forall i :: 0 <= i < |b| ==> s[i] == b[i];
    assert s[|a|] == '|' && s[|b|] == '|';
    assert |a| == |b|;
    assert a == s[..|a|] == b && x == s[|a| + 1..] == y;
  }

  lemma TrailingPart(x: string, a: string, y: string, b: string)
    requires '|' !in a && '|' !in b && x + "|" + a == y + "|" + b
    ensures a == b && x == y
  {
    var s := x + "|" + a;
    assert forall i :: |x| < i < |s| ==> s[i] == a[i - |x| - 1];
    assert forall i :: |y| < i < |s| ==> s[i] == b[i - |y| - 1];
    assert s[|x|] == '|' && s[|y|] == '|';
    assert |x| == |y|;
    assert x == s[..|x|] == y && a == s[|x| + 1..] == b;
  }

  lemma {:induction false} ItoaDigits(n: int)
    requires n >= 0
    ensures Itoa(n) != "" && forall i :: 0 <= i < |Itoa(n)| ==> '0' <= Itoa(n)[i] <= '9'
    decreases n
  {
    if n >= 10 {
      ItoaDigits(n / 10);
    }
  }

  lemma {:induction false} ItoaOfNat(n: int, m: int)
    requires n >= 0 && m >= 0 && Itoa(n) == Itoa(m)
    ensures n == m
    decreases n
  {
    if n >= 10 {
      ItoaDigits(n / 10);
    }
    if m >= 10 {
      ItoaDigits(m / 10);
    }
    assert Itoa(n)[|Itoa(n)| - 1] == Itoa(m)[|Itoa(m)| - 1];
    if n >= 10 && m >= 10 {
      assert Itoa(n)[..|Itoa(n)| - 1] == Itoa(n / 10) && Itoa(m)[..|Itoa(m)| - 1] == Itoa(m / 10);
      ItoaOfNat(n / 10, m / 10);
    }
  }

  /** Itoa writes different numbers differently, and no bars. */
  lemma ItoaInjective(n: int, m: int)
    ensures '|' !in Itoa(n) && (Itoa(n) == Itoa(m) ==> n == m)
  {
    ItoaDigits(if n < 0 then -n else n);
    ItoaDigits(if m < 0 then -m else m);
    if Itoa(n) == Itoa(m) {
      assert Itoa(n)[0] == Itoa(m)[0];
      if n < 0 && m < 0 {
        assert Itoa(n)[1..] == Itoa(-n) && Itoa(m)[1..] == Itoa(-m);
        ItoaOfNat(-n, -m);
      } else if n >= 0 && m >= 0 {
        ItoaOfNat(n, m);
      }
    }
  }

  /** No part but the body has a bar. */
  predicate BarsOnlyInBody(f: Finding) {
    '|' !in Reviewers.Key(f.bot) && '|' !in f.path && '|' !in f.title && '|' !in f.threadId
  }

  lemma IdentityParts(d: Dialect, f: Finding)
    requires StableKey(d, f).None?
    ensures IdOf(d, f) == Reviewers.Key(f.bot) + "|"
                          + (f.path + "|" + (Itoa(f.line) + "|" + (f.title + "|" + (f.body + "|" + f.threadId))))
  {
    hide Itoa, Reviewers.Key;
    var k, p, l, t, b, n := Reviewers.Key(f.bot), f.path, Itoa(f.line), f.title, f.body, f.threadId;
    assert k + "|" + p + "|" + l + "|" + t + "|" + b + "|" + n
        == k + "|" + (p + "|" + (l + "|" + (t + "|" + (b + "|" + n))));
  }

  /** Findings without keys of their own, and with bars only in their bodies, share an
      identity only when they agree on bot, path, line, title, body and thread. */
  lemma IdentityInjective(d: Dialect, f: Finding, g: Finding)
    requires StableKey(d, f).None? && StableKey(d, g).None? && BarsOnlyInBody(f) && BarsOnlyInBody(g)
    requires IdOf(d, f) == IdOf(d, g)
    ensures Reviewers.SameBot(f.bot, g.bot) && f.path == g.path && f.line == g.line
    ensures f.title == g.title && f.body == g.body && f.threadId == g.threadId
  {
    IdentityParts(d, f);
    IdentityParts(d, g);
    hide IdOf, StableKey, Itoa, Reviewers.Key;
    var fb, gb := f.body + "|" + f.threadId, g.body + "|" + g.threadId;
    var ft, gt := f.title + "|" + fb, g.title + "|" + gb;
    var fl, gl := Itoa(f.line) + "|" + ft, Itoa(g.line) + "|" + gt;
    LeadingPart(Reviewers.Key(f.bot), f.path + "|" + fl, Reviewers.Key(g.bot), g.path + "|" + gl);
    LeadingPart(f.path, fl, g.path, gl);
    ItoaInjective(f.line, g.line);
    ItoaInjective(g.line, f.line);
    LeadingPart(Itoa(f.line), ft, Itoa(g.line), gt);
    LeadingPart(f.title, fb, g.title, gb);
    TrailingPart(f.body, f.threadId, g.body, g.threadId);
  }

  // ---- Settled findings

  /** A comment that carries a bot's own identity for a bug, and whether it names the
      current head. */
  datatype Comment = Comment(key: Option<string>, atHead: bool)

  datatype Thread = Thread(settled: bool, comments: seq<Comment>)

  /** Some thread, settled or not as asked, carries the identity; and at the head, if
      asked. */
  ghost predicate Carries(threads: seq<Thread>, settled: bool, key: string, atHead: bool) {
    exists t, c :: t in threads && t.settled == settled && c in t.comments
      && c.key == Some(key) && (atHead ==> c.atHead)
  }

  /** The rule: settled somewhere, and not open at the head unless settled there too. */
  ghost predicate SettledBug(threads: seq<Thread>, key: string) {
    Carries(threads, true, key, false) && (!Carries(threads, false, key, true) || Carries(threads, true, key, true))
  }

  /** The three maps of the loop, as far as threads go and into the comments of one. */
  ghost predicate Counted(threads: seq<Thread>, partial: Thread, anySettled: set<string>, openAtHead: set<string>,
                          settledAtHead: set<string>) {
    forall key :: CountedKey(threads + [partial], anySettled, openAtHead, settledAtHead, key)
  }

  ghost predicate CountedKey(threads: seq<Thread>, anySettled: set<string>, openAtHead: set<string>,
                             settledAtHead: set<string>,
                             key: string) {
    && (key in anySettled <==> Carries(threads, true, key, false))
    && (key in openAtHead <==> Carries(threads, false, key, true))
    && (key in settledAtHead <==> Carries(threads, true, key, true))
  }

  lemma CarriesSnoc(threads: seq<Thread>, t: Thread, c: Comment, settled: bool, key: string, atHead: bool)
    ensures Carries(threads + [t.(comments := t.comments + [c])], settled, key, atHead)
      <==> Carries(threads + [t], settled, key, atHead)
           || (t.settled == settled && c.key == Some(key) && (atHead ==> c.atHead))
  {
    var longer := t.(comments := t.comments + [c]);
    if Carries(threads + [t], settled, key, atHead) {
      var u, d :| u in threads + [t] && u.settled == settled
                  && d in u.comments && d.key == Some(key) && (atHead ==> d.atHead);
      if u == t {
        assert longer in threads + [longer] && d in longer.comments;
      } else {
        assert u in threads + [longer];
      }
    }
    if t.settled == settled && c.key == Some(key) && (atHead ==> c.atHead) {
      assert longer in threads + [longer] && c in longer.comments;
    }
    if Carries(threads + [longer], settled, key, atHead) {
      var u, d :| u in threads + [longer] && u.settled == settled
                  && d in u.comments && d.key == Some(key) && (atHead ==> d.atHead);
      assert u in threads ==> u in threads + [t];
      assert t in threads + [t];
    }
  }

  lemma CarriesEmpty(threads: seq<Thread>, settled: bool, key: string, atHead: bool, open: bool)
    ensures Carries(threads + [Thread(open, [])], settled, key, atHead) <==> Carries(threads, settled, key, atHead)
  {
    if Carries(threads, settled, key, atHead) {
      var u, d :| u in threads && u.settled == settled && d in u.comments
                  && d.key == Some(key) && (atHead ==> d.atHead);
      assert u in threads + [Thread(open, [])];
    }
  }

  /** The settled-identity computation of Feedback. */
  method SettledIds(threads: seq<Thread>) returns (settledIds: set<string>)
    ensures forall key :: key in settledIds <==> SettledBug(threads, key)
  {
    hide Carries, Counted;
    var anySettled: set<string>, openAtHead: set<string>, settledAtHead: set<string> := {}, {}, {};
    NothingCounted();
    for i := 0 to |threads|
      invariant Tallied(threads[..i], anySettled, openAtHead, settledAtHead)
    {
      var t := threads[i];
      NextThread(threads, i, anySettled, openAtHead, settledAtHead);
      for j := 0 to |t.comments|
        invariant Counted(threads[..i], Thread(t.settled, t.comments[..j]), anySettled, openAtHead, settledAtHead)
      {
        var c := t.comments[j];
        NextComment(threads[..i], t, j, anySettled, openAtHead, settledAtHead);
        assert anySettled + {} == anySettled && openAtHead + {} == openAtHead && settledAtHead + {} == settledAtHead;
        if c.key.None? {
          continue;
        }
        if t.settled {
          anySettled := anySettled + {c.key.value};
          settledAtHead := if c.atHead then settledAtHead + {c.key.value} else settledAtHead;
        } else {
          openAtHead := if c.atHead then openAtHead + {c.key.value} else openAtHead;
        }
      }
      ThreadDone(threads, i, anySettled, openAtHead, settledAtHead);
    }
    assert threads[..|threads|] == threads;
    settledIds := set key | key in anySettled && (key !in openAtHead || key in settledAtHead);
    forall key ensures key in settledIds <==> SettledBug(threads, key) {
      assert CountedKey(threads, anySettled, openAtHead, settledAtHead, key);
    }
  }

  ghost predicate Tallied(threads: seq<Thread>, anySettled: set<string>, openAtHead: set<string>,
                          settledAtHead: set<string>) {
    forall key :: CountedKey(threads, anySettled, openAtHead, settledAtHead, key)
  }

  lemma NothingCounted()
    ensures Tallied([], {}, {}, {})
  {
    forall key ensures CountedKey([], {}, {}, {}, key) {
    }
  }

  lemma NextThread(threads: seq<Thread>, i: nat, anySettled: set<string>, openAtHead: set<string>,
                   settledAtHead: set<string>)
    requires i < |threads| && Tallied(threads[..i], anySettled, openAtHead, settledAtHead)
    ensures Counted(threads[..i], Thread(threads[i].settled, threads[i].comments[..0]),
                    anySettled, openAtHead, settledAtHead)
  {
    hide Carries;
    assert threads[i].comments[..0] == [];
    forall key
      ensures CountedKey(threads[..i] + [Thread(threads[i].settled, [])], anySettled, openAtHead, settledAtHead, key)
    {
      assert CountedKey(threads[..i], anySettled, openAtHead, settledAtHead, key);
      CarriesEmpty(threads[..i], true, key, false, threads[i].settled);
      CarriesEmpty(threads[..i], false, key, true, threads[i].settled);
      CarriesEmpty(threads[..i], true, key, true, threads[i].settled);
    }
  }

  lemma NextComment(before: seq<Thread>, t: Thread, j: nat, anySettled: set<string>, openAtHead: set<string>,
                    settledAtHead: set<string>)
    requires j < |t.comments|
    requires Counted(before, Thread(t.settled, t.comments[..j]), anySettled, openAtHead, settledAtHead)
    ensures var c := t.comments[j];
      var own := if c.key.Some? then {c.key.value} else {};
      var head := if c.atHead then own else {};
      Counted(before, Thread(t.settled, t.comments[..j + 1]), if t.settled then anySettled + own else anySettled,
              if t.settled then openAtHead else openAtHead + head,
              if t.settled then settledAtHead + head else settledAtHead)
  {
    hide Carries;
    var c, part := t.comments[j], Thread(t.settled, t.comments[..j]);
    assert t.comments[..j + 1] == t.comments[..j] + [c];
    assert Thread(t.settled, t.comments[..j + 1]) == part.(comments := part.comments + [c]);
    var own := if c.key.Some? then {c.key.value} else {};
    var head := if c.atHead then own else {};
    var any := if t.settled then anySettled + own else anySettled;
    var open := if t.settled then openAtHead else openAtHead + head;
    var both := if t.settled then settledAtHead + head else settledAtHead;
    var longer := before + [part.(comments := part.comments + [c])];
    forall key ensures CountedKey(longer, any, open, both, key) {
      assert CountedKey(before + [part], anySettled, openAtHead, settledAtHead, key);
      CarriesSnoc(before, part, c, true, key, false);
      CarriesSnoc(before, part, c, false, key, true);
      CarriesSnoc(before, part, c, true, key, true);
    }
  }

  lemma ThreadDone(threads: seq<Thread>, i: nat, anySettled: set<string>, openAtHead: set<string>,
                   settledAtHead: set<string>)
    requires i < |threads|
    requires var t := threads[i];
      Counted(threads[..i], Thread(t.settled, t.comments[..|t.comments|]), anySettled, openAtHead, settledAtHead)
    ensures Tallied(threads[..i + 1], anySettled, openAtHead, settledAtHead)
  {
    hide Carries;
    assert threads[i].comments[..|threads[i].comments|] == threads[i].comments;
    assert threads[..i + 1] == threads[..i] + [threads[i]];
  }

  /** A bug is settled exactly when some settled thread names it and, if an open thread names
      it at the current head, a settled one does so too. */
  lemma SettledExactly(threads: seq<Thread>, key: string)
    ensures SettledBug(threads, key) <==>
      && (exists t, c :: t in threads && t.settled && c in t.comments && c.key == Some(key))
      && ((exists t, c :: t in threads && !t.settled && c in t.comments && c.key == Some(key) && c.atHead)
          ==> exists t, c :: t in threads && t.settled && c in t.comments && c.key == Some(key) && c.atHead)
  {
  }

  /** The order the threads come in does not matter. */
  lemma SettledInAnyOrder(a: seq<Thread>, b: seq<Thread>, key: string)
    requires multiset(a) == multiset(b)
    ensures SettledBug(a, key) <==> SettledBug(b, key)
  {
    assert forall t :: t in a <==> t in multiset(a);
    assert forall t :: t in b <==> t in multiset(b);
  }
}
