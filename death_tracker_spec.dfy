/** The values the DeathTracker plugin works with, and the functions that
    specify its handlers: how a death is recorded, how many lives are left,
    what the death handler emits once the limit is passed, and how an id is
    taken off the ban list. */
module DeathTrackerSpec {
  import opened Int32

  datatype Option<T> = None | Some(value: T)

  /** The plugin's configuration record; `penaltyAmount` is a C# `double`
      that the plugin only forwards, so no arithmetic is done on it. */
  datatype ConfigData = ConfigData(defaultLives: int32, penaltyAmount: real, banMessage: string)

  /** The property initialisers of the configuration record. */
  const DefaultConfig := ConfigData(3, 100.0, "You have been banned for exceeding death limits.")

  /** Who issued a console command: the server console (a null connection)
      or a client connection with its authorisation level. */
  datatype Caller = Console | Client(authLevel: nat)

  /** The gate every admin command opens with: it returns early exactly
      for a client connection whose level is below 2, so the console and
      clients of level 2 and above get through. */
  function MayAdminister(caller: Caller): (r: bool)
    ensures !r <==> caller.Client? && caller.authLevel < 2
    ensures caller.Console? ==> r
  {
    caller.Console? || caller.authLevel >= 2
  }

  /** A message sent to one player; number formatting is not modelled, so
      the numeric messages carry their number. */
  datatype Notice =
    | PenaltyNotice(amount: real)      // "You have been penalized {amount} for exceeding death limits."
    | LivesLeftNotice(lives: int32)    // "You have {lives} lives left."
    | DeathCountNotice(deaths: int32)  // "You have died {deaths} times."
    | TextNotice(text: string)         // a configured text, sent as it is

  /** How the death handler's call into the economics plugin ends: the
      withdrawal is made, it is refused (insufficient funds or any other
      failure the plugin reports as `false`), or the plugin reference is
      null because the economics plugin is not loaded, so the call throws. */
  datatype EconomicsReply = Withdrawn | Refused | NotLoaded

  /** What the death handler asks of the host and of the economics plugin,
      in the order it asks. */
  datatype HostAction =
    | Withdraw(playerId: string, amount: real)
    | Message(notice: Notice)
    | Ban(reason: string)
    | Kick(reason: string)

  // The console lines the admin commands print.
  const NoBansLine := "No players are currently banned."
  const BannedHeaderLine := "Banned players:"
  const BanListWipedLine := "Ban list has been wiped."
  const UnbanUsageLine := "Usage: unbanplayer <playerId>"
  const DeathsResetLine := "Death counts have been reset for all players."
  const EconomicsWipeLine := "Death counts reset due to economics data wipe."

  function UnbannedLine(playerId: string): string {
    "Player " + playerId + " has been unbanned."
  }

  function NotBannedLine(playerId: string): string {
    "Player " + playerId + " is not banned."
  }

  // ---------------------------------------------------------------------
  // Death counts

  /** The stored count, 0 for an id with no entry. */
  function DeathsOf(counts: map<string, int32>, p: string): (r: int32)
    ensures p in counts ==> r == counts[p]
    ensures p !in counts ==> r == 0
    ensures r != 0 ==> p in counts && counts[p] == r
  {
    if p in counts then counts[p] else 0
  }

  /** The death handler's update of the count dictionary: an absent entry
      is first created as 0, then the entry is incremented. */
  function RecordDeath(counts: map<string, int32>, p: string): (r: map<string, int32>)
    ensures r.Keys == counts.Keys + {p}
    ensures DeathsOf(counts, p) as int < MAX ==> r[p] as int == DeathsOf(counts, p) as int + 1
    ensures DeathsOf(counts, p) as int == MAX ==> r[p] as int == MIN
    ensures forall q :: q in counts && q != p ==> r[q] == counts[q]
  {
    var c := if p in counts then counts[p] else 0;
    counts[p := Inc(c)]
  }

  /** Death counts after a run of death events, first to last. */
  function RecordDeaths(counts: map<string, int32>, ps: seq<string>): map<string, int32>
    decreases |ps|
  {
    if ps == [] then counts else RecordDeaths(RecordDeath(counts, ps[0]), ps[1..])
  }

  /** Every death event for `p` adds exactly one, every other leaves `p`
      alone, as long as the 32-bit counter does not wrap. */
  lemma {:induction false} DeathsCountEvents(counts: map<string, int32>, ps: seq<string>, p: string)
    requires DeathsOf(counts, p) as int + multiset(ps)[p] <= MAX
    ensures DeathsOf(RecordDeaths(counts, ps), p) as int == DeathsOf(counts, p) as int + multiset(ps)[p]
    decreases |ps|
  {
    if ps != [] {
      assert ps == [ps[0]] + ps[1..];
      assert multiset(ps) == multiset{ps[0]} + multiset(ps[1..]);
      var next := RecordDeath(counts, ps[0]);
      if ps[0] == p {
        assert DeathsOf(next, p) as int == DeathsOf(counts, p) as int + 1;
      } else {
        assert DeathsOf(next, p) == DeathsOf(counts, p);
      }
      DeathsCountEvents(next, ps[1..], p);
    }
  }

  /** The lives query: the configured allowance minus the deaths, in 32-bit
      arithmetic and with no floor at zero. */
  function LivesOf(cfg: ConfigData, counts: map<string, int32>, p: string): (r: int32)
    ensures (r as int - (cfg.defaultLives as int - DeathsOf(counts, p) as int)) % MODULUS == 0
    ensures 0 <= cfg.defaultLives && 0 <= DeathsOf(counts, p) ==>
              r as int == cfg.defaultLives as int - DeathsOf(counts, p) as int
  {
    Sub(cfg.defaultLives, DeathsOf(counts, p))
  }

  /** Once a player has died more often than the allowance, the lives
      query reports a negative number. */
  lemma LivesGoNegative(cfg: ConfigData, counts: map<string, int32>, p: string)
    requires 0 <= cfg.defaultLives < DeathsOf(counts, p)
    ensures LivesOf(cfg, counts, p) < 0
  {
  }

  // ---------------------------------------------------------------------
  // Enforcement

  /** The death handler acts when the new count is strictly above the
      allowance, and bans when the withdrawal it then attempts is refused. */
  predicate Exceeds(cfg: ConfigData, count: int32) {
    count > cfg.defaultLives
  }

  predicate Excludes(cfg: ConfigData, count: int32, reply: EconomicsReply) {
    Exceeds(cfg, count) && reply == Refused
  }

  /** The handler throws, and so skips the rest of its body including the
      flush, when it needs the economics plugin and that is not loaded. */
  function Aborts(cfg: ConfigData, count: int32, reply: EconomicsReply): (r: bool)
    ensures r ==> Exceeds(cfg, count)
    ensures r ==> !Excludes(cfg, count, reply)
    ensures Exceeds(cfg, count) ==> (r <==> reply.NotLoaded?)
  {
    Exceeds(cfg, count) && reply == NotLoaded
  }

  /** What the death handler emits for a player whose new count is `count`,
      given how the economics plugin answers the withdrawal it may attempt. */
  function DeathActions(cfg: ConfigData, p: string, count: int32, reply: EconomicsReply): (r: seq<HostAction>)
    ensures |r| > 0 <==> Exceeds(cfg, count) && !Aborts(cfg, count, reply)
    ensures |r| > 0 ==> r[0] == Withdraw(p, cfg.penaltyAmount)
    ensures forall i :: 0 < i < |r| ==> !r[i].Withdraw?
    ensures Ban(cfg.banMessage) in r <==> Excludes(cfg, count, reply)
    ensures Kick(cfg.banMessage) in r <==> Excludes(cfg, count, reply)
    ensures Exceeds(cfg, count) && reply == Withdrawn ==> Message(PenaltyNotice(cfg.penaltyAmount)) in r
    ensures Excludes(cfg, count, reply) ==> Message(TextNotice(cfg.banMessage)) in r
  {
    if !Exceeds(cfg, count) then []
    else match reply
      case Withdrawn =>
        [Withdraw(p, cfg.penaltyAmount), Message(PenaltyNotice(cfg.penaltyAmount))]
      case Refused =>
        [Withdraw(p, cfg.penaltyAmount), Ban(cfg.banMessage), Kick(cfg.banMessage), Message(TextNotice(cfg.banMessage))]
      case NotLoaded => []
  }

  /** Starting from no entry, the k-th death event leaves the count at k,
      so enforcement fires on death number defaultLives + 1 and on every
      later one, and on no earlier one. */
  lemma EnforcementStartsAfterAllowance(cfg: ConfigData, counts: map<string, int32>, p: string, k: nat)
    requires p !in counts && k <= MAX
    ensures DeathsOf(RecordDeaths(counts, seq(k, _ => p)), p) as int == k
    ensures Exceeds(cfg, DeathsOf(RecordDeaths(counts, seq(k, _ => p)), p)) <==> k >= cfg.defaultLives as int + 1
  {
    var ps := seq(k, _ => p);
    OccurrencesOfRepeat(p, k);
    DeathsCountEvents(counts, ps, p);
  }

  lemma {:induction false} OccurrencesOfRepeat(p: string, k: nat)
    ensures multiset(seq(k, _ => p))[p] == k
  {
    if k > 0 {
      var ps := seq(k, _ => p);
      assert ps == seq(k - 1, _ => p) + [p];
      OccurrencesOfRepeat(p, k - 1);
    }
  }

  // ---------------------------------------------------------------------
  // The ban list

  /** `List<string>.Remove`: drop the first occurrence of `x`, if any.
      Exactly one copy of `x` goes when there is one, and nothing else. */
  function RemoveFirst(s: seq<string>, x: string): (r: seq<string>)
    ensures multiset(r) == multiset(s) - multiset{x}
  {
    if s == [] then []
    else
      assert s == [s[0]] + s[1..];
      if s[0] == x then s[1..]
      else [s[0]] + RemoveFirst(s[1..], x)
  }

  /** With no occurrence to remove, the list is left as it is. */
  lemma {:induction false} RemoveFirstAbsent(s: seq<string>, x: string)
    requires x !in s
    ensures RemoveFirst(s, x) == s
  {
    if s != [] {
      assert x !in s[1..];
      RemoveFirstAbsent(s[1..], x);
    }
  }

  /** Removal splices out exactly the element at the first index holding `x`. */
  lemma {:induction false} RemoveFirstSplices(s: seq<string>, x: string, i: nat)
    requires i < |s| && s[i] == x && x !in s[..i]
    ensures RemoveFirst(s, x) == s[..i] + s[i + 1..]
  {
    if i > 0 {
      assert s[0] != x by { assert s[0] in s[..i]; }
      assert s[1..][..i - 1] == s[1..i];
      assert x !in s[1..][..i - 1];
      RemoveFirstSplices(s[1..], x, i - 1);
      assert s[1..][i - 1 + 1..] == s[i + 1..];
      assert s[..i] == [s[0]] + s[1..i];
    }
  }

  /** An id that was added to the list twice is still on it after one
      removal, so the unban command reports "has been unbanned" while the
      login gate keeps rejecting the player. */
  lemma DuplicateSurvivesRemoval(s: seq<string>, x: string)
    requires multiset(s)[x] >= 2
    ensures x in RemoveFirst(s, x)
  {
    assert multiset(RemoveFirst(s, x))[x] >= 1;
  }
}
