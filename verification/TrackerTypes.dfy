/**
 The records of internal/divergence: votes, the evidence archive (heights, rounds, ballots) and the
 live threshold detector. A wall-clock reading is an int handed to each step. A Go slice or map that
 only one record owns is held here as a value inside that record.
 */
module TrackerTypes {
  import opened Common

  const ROUND_LIMIT := 128              // InvestigationRoundLimit
  const HASH_LIMIT := 4                 // InvestigationHashLimit
  const UNKNOWN_LIMIT := 64             // InvestigationUnknownValidatorLimit
  const IDENTITY_LIMIT := 128           // investigationIdentityLimit
  const MAX_ROUND := 0x7fff_ffff        // math.MaxInt32
  const SAMPLE_LIMIT := 5               // monikers kept per group

  /** VoteType is a byte in the source; every value other than 1 and 2 behaves alike. */
  datatype VoteType = Prevote | Precommit | OtherType

  datatype Validator = Validator(power: int, moniker: string)

  type Roster = map<string, Validator>

  /** A validator outside the roster weighs nothing: Go's zero value for a missing map key. */
  function PowerIn(m: Roster, a: string): int { if a in m then m[a].power else 0 }

  function MonikerIn(m: Roster, a: string): string { if a in m then m[a].moniker else "" }

  datatype VoteEvent = VoteEvent(height: int, round: int, kind: VoteType, addr: string, hash: string,
    signedAt: Option<int>)

  // ---------- evidence archive ----------

  datatype HashSeen = HashSeen(hash: string, seenAt: int, signedAt: Option<int>)

  datatype PhaseVote = PhaseVote(hashes: seq<HashSeen>, conflicting: bool, truncated: bool)
  {
    function Hashes(): set<string> { set i | 0 <= i < |hashes| :: hashes[i].hash }
  }

  const NO_HASHES := PhaseVote([], false, false)

  /** One validator's two phases: map[VoteType]*InvestigationVote. */
  datatype Ballot = Ballot(prevote: Option<PhaseVote>, precommit: Option<PhaseVote>)
  {
    function At(kind: VoteType): Option<PhaseVote>
    {
      match kind
      case Prevote => prevote
      case Precommit => precommit
      case OtherType => None
    }

    function Put(kind: VoteType, vote: PhaseVote): Ballot
    {
      match kind
      case Prevote => this.(prevote := Some(vote))
      case Precommit => this.(precommit := Some(vote))
      case OtherType => this
    }
  }

  const NO_BALLOT := Ballot(None, None)

  datatype ArchivedRound = ArchivedRound(
    round: int,
    proposer: string,
    firstSeen: int,
    lastSeen: int,
    roster: Roster,
    votes: map<string, Ballot>,
    truncated: bool)
  {
    function Vote(a: string, kind: VoteType): Option<PhaseVote>
    {
      if a in votes then votes[a].At(kind) else None
    }

    /** The hashes held for one validator and phase. */
    function Held(a: string, kind: VoteType): set<string>
    {
      match Vote(a, kind)
      case None => {}
      case Some(v) => v.Hashes()
    }

    function UnknownVoters(): set<string> { set a | a in votes && a !in roster }
  }

  datatype ArchivedHeight = ArchivedHeight(
    revision: int,
    height: int,
    rounds: map<int, ArchivedRound>,
    firstSeen: int,
    lastSeen: int,
    committed: bool,
    canonicalHash: string,
    firstRound: int,
    lastRound: int,
    roundsObserved: int,
    roundsEvicted: int,
    evictedThrough: int)

  // ---------- live detector ----------

  datatype Key = Key(height: int, round: int, kind: VoteType)

  datatype Group = Group(power: int, validators: seq<string>, monikers: seq<string>)

  datatype RoundData = RoundData(
    groups: map<string, Group>,
    seen: set<string>,
    totalVotingPower: int,
    totalVotedPower: int,
    validators: Roster,
    resolved: bool,
    canonicalHash: string,
    committed: bool,
    advanced: bool,
    detected: bool)

  datatype GroupRow = GroupRow(
    hash: string,
    power: int,
    pct: real,
    validators: seq<string>,
    monikers: seq<string>,
    isCanonical: bool)

  datatype RoundReport = RoundReport(
    key: Key,
    groups: seq<GroupRow>,
    totalVotingPower: int,
    totalVotedPower: int,
    resolved: bool,
    canonicalHash: string,
    isDivergent: bool)

  // ---------- the tracker ----------

  datatype Config = Config(thresholdPct: real, historySize: int, includePrevotes: bool)

  datatype TrackerState = TrackerState(
    cfg: Config,
    rounds: map<Key, RoundData>,
    history: seq<RoundReport>,
    defaultValidators: Roster,
    defaultTotalPower: int,
    committedHeight: int,
    archive: map<int, ArchivedHeight>,
    archiveEvictedThrough: int,
    archiveLatestHeight: int,
    catalogueRevision: int)
  {
    predicate Retained(h: int, r: int) { h in archive && r in archive[h].rounds }
  }

  function NewTracker(cfg: Config): TrackerState
  {
    var c := if cfg.historySize <= 0 then cfg.(historySize := 32) else cfg;
    TrackerState(c, map[], [], map[], 0, 0, map[], 0, 0, 0)
  }
}
