/** The durable state of a review: the control document, the round journal, the
    staging files and the archived candidates, each file replaced atomically
    and one at a time. */
module ReviewStore {
  import opened Base
  import opened DiffLines
  import opened ReviewLaw
  import K = KernelRuntime
  import A = KernelApply
  import R = KernelRelation

  type Control = K.ControlState<Observed>
  type Receipt = A.Receipt<Observed>

  /** Candidate bytes: their compacted form, and the layout compaction drops. */
  datatype Bytes = Bytes(compact: string, layout: string)

  /** The hash of the compacted form. */
  function FingerprintOf(b: Bytes): string { "sha256:" + b.compact }

  lemma FingerprintIdentifies(a: Bytes, b: Bytes)
    ensures FingerprintOf(a) == FingerprintOf(b) <==> a.compact == b.compact
  {
    assert FingerprintOf(a)[7..] == a.compact && FingerprintOf(b)[7..] == b.compact;
  }

  datatype Document = Document(state: Control, receipts: seq<Receipt>)
  datatype Journal = Journal(generation: nat, rounds: seq<Round>)
  datatype Meta = Meta(fingerprint: string, reviewedTree: string)

  /** The domain-owned files. */
  datatype Disk = Disk(journal: Option<Journal>, staged: Option<Bytes>, meta: Option<Meta>, archive: map<string, Bytes>)

  const EMPTY := Disk(None, None, None, map[])

  function JournalOf(d: Disk): Journal { if d.journal.Some? then d.journal.value else Journal(1, []) }

  function InGeneration(rounds: seq<Round>, generation: nat): seq<Round> {
    R.Keep((r: Round) => r.generation == generation, rounds)
  }

  /** The rounds of the active generation in order. */
  function CurrentRounds(j: Journal): seq<Round> { InGeneration(j.rounds, j.generation) }

  method ReadCurrentRounds(j: Journal) returns (rounds: seq<Round>)
    ensures rounds == CurrentRounds(j)
  {
    rounds := [];
    var i := 0;
    while i < |j.rounds|
      invariant 0 <= i <= |j.rounds|
      invariant rounds == InGeneration(j.rounds[..i], j.generation)
    {
      R.KeepStep((r: Round) => r.generation == j.generation, j.rounds, i);
      if j.rounds[i].generation == j.generation { rounds := rounds + [j.rounds[i]]; }
      i := i + 1;
    }
    assert j.rounds[..i] == j.rounds;
  }

  datatype Staged = Nothing | Torn | Candidate(bytes: Bytes, meta: Meta)

  function LoadStaged(d: Disk): Staged {
    if d.staged.None? then Nothing
    else if d.meta.None? || d.meta.value.fingerprint != FingerprintOf(d.staged.value) then Torn
    else Candidate(d.staged.value, d.meta.value)
  }

  // ----- Writes -----

  datatype Write = SaveJournal(journal: Journal) | SaveStaged(bytes: Bytes) | SaveMeta(meta: Meta)
                 | SaveRound(fingerprint: string, bytes: Bytes) | DropStaged | DropMeta

  function Written(d: Disk, w: Write): Disk {
    match w
    case SaveJournal(j) => d.(journal := Some(j))
    case SaveStaged(b) => d.(staged := Some(b))
    case SaveMeta(m) => d.(meta := Some(m))
    case SaveRound(f, b) => d.(archive := d.archive[f := b])
    case DropStaged => d.(staged := None)
    case DropMeta => d.(meta := None)
  }

  function AllWritten(d: Disk, ws: seq<Write>): Disk {
    if ws == [] then d else Written(AllWritten(d, ws[..|ws| - 1]), ws[|ws| - 1])
  }

  /** What a script leaves behind when it stops after some of its writes. */
  function Interrupted(d: Disk, script: seq<Write>, budget: nat): Disk {
    AllWritten(d, script[..if budget < |script| then budget else |script|])
  }

  function Placed(j: Journal, r: Round): Round { r.(generation := j.generation, index := |CurrentRounds(j)| + 1) }

  function StageScript(b: Bytes, tree: string): seq<Write> { [SaveStaged(b), SaveMeta(Meta(FingerprintOf(b), tree))] }

  function ClearScript(): seq<Write> { [DropStaged, DropMeta] }

  function ArchiveScript(j: Journal, b: Bytes, r: Round): seq<Write> {
    [SaveRound(r.fingerprint, b), SaveJournal(j.(rounds := j.rounds + [Placed(j, r)])), DropStaged, DropMeta]
  }

  function NextScript(j: Journal): seq<Write> {
    [SaveJournal(j.(generation := j.generation + 1)), DropStaged, DropMeta]
  }

  lemma OneMoreWrite(d: Disk, script: seq<Write>, n: nat)
    requires n < |script|
    ensures AllWritten(d, script[..n + 1]) == Written(AllWritten(d, script[..n]), script[n])
  {
    assert script[..n + 1][..n] == script[..n];
  }

  /** The files as the program handles them. Each call is given how many of its
      writes happen before it is cut off; a removal of an absent file
      succeeds. */
  class FileStore {
    const initial: Control
    var document: Option<Document>
    var journal: Option<Journal>
    var staged: Option<Bytes>
    var meta: Option<Meta>
    var archive: map<string, Bytes>

    constructor (initial: Control)
      ensures this.initial == initial && document.None? && OnDisk() == EMPTY
    {
      this.initial := initial;
      document, journal, staged, meta, archive := None, None, None, None, map[];
    }

    function OnDisk(): Disk
      reads this
    {
      Disk(journal, staged, meta, archive)
    }

    function Loaded(): Document
      reads this
    {
      if document.Some? then document.value else Document(initial, [])
    }

    method BeginEffect(revision: K.Revision, target: Control, saved: bool) returns (ok: bool)
      modifies this`document
      ensures ok <==> saved && old(Loaded()).state.revision == revision
      ensures Loaded() == if ok then old(Loaded()).(state := target) else old(Loaded())
    {
      var current := Loaded();
      if current.state.revision != revision || !saved { return false; }
      document := Some(current.(state := target));
      return true;
    }

    /** The target state and its receipt become visible together. */
    method CommitTransition(revision: K.Revision, target: Control, receipt: Receipt, saved: bool) returns (ok: bool)
      modifies this`document
      ensures ok <==> saved && old(Loaded()).state.revision == revision
      ensures Loaded() == if ok then Document(target, old(Loaded()).receipts + [receipt]) else old(Loaded())
    {
      var current := Loaded();
      if current.state.revision != revision || !saved { return false; }
      document := Some(Document(target, current.receipts + [receipt]));
      return true;
    }

    method Put(w: Write)
      modifies this`journal, this`staged, this`meta, this`archive
      ensures OnDisk() == Written(old(OnDisk()), w)
    {
      match w {
        case SaveJournal(j) => journal := Some(j);
        case SaveStaged(b) => staged := Some(b);
        case SaveMeta(m) => meta := Some(m);
        case SaveRound(f, b) => archive := archive[f := b];
        case DropStaged => staged := None;
        case DropMeta => meta := None;
      }
    }

    /** Performs the writes of a script in order until it is cut off. */
    method Perform(script: seq<Write>, budget: nat) returns (ok: bool)
      modifies this`journal, this`staged, this`meta, this`archive
      ensures ok <==> budget >= |script|
      ensures OnDisk() == Interrupted(old(OnDisk()), script, budget)
    {
      var i := 0;
      while i < |script| && i < budget
        invariant 0 <= i <= |script| && i <= budget
        invariant OnDisk() == AllWritten(old(OnDisk()), script[..i])
      {
        OneMoreWrite(old(OnDisk()), script, i);
        Put(script[i]);
        i := i + 1;
      }
      return i == |script|;
    }

    method StageCandidate(b: Bytes, tree: string, budget: nat) returns (ok: bool)
      modifies this`journal, this`staged, this`meta, this`archive
      ensures ok <==> budget >= 2
      ensures OnDisk() == Interrupted(old(OnDisk()), StageScript(b, tree), budget)
    {
      ok := Perform([SaveStaged(b), SaveMeta(Meta(FingerprintOf(b), tree))], budget);
    }

    method ClearStagedCandidate(budget: nat) returns (ok: bool)
      modifies this`journal, this`staged, this`meta, this`archive
      ensures ok <==> budget >= 2
      ensures OnDisk() == Interrupted(old(OnDisk()), ClearScript(), budget)
    {
      ok := Perform([DropStaged, DropMeta], budget);
    }

    method ArchiveRound(b: Bytes, r: Round, budget: nat) returns (ok: bool)
      modifies this`journal, this`staged, this`meta, this`archive
      ensures ok <==> budget >= 4
      ensures OnDisk() == Interrupted(old(OnDisk()), ArchiveScript(JournalOf(old(OnDisk())), b, r), budget)
    {
      var j := if journal.Some? then journal.value else Journal(1, []);
      var current := ReadCurrentRounds(j);
      var placed := r.(generation := j.generation, index := |current| + 1);
      ok := Perform([SaveRound(placed.fingerprint, b), SaveJournal(j.(rounds := j.rounds + [placed])), DropStaged,
        DropMeta], budget);
    }

    method NextGeneration(budget: nat) returns (ok: bool)
      modifies this`journal, this`staged, this`meta, this`archive
      ensures ok <==> budget >= 3
      ensures OnDisk() == Interrupted(old(OnDisk()), NextScript(JournalOf(old(OnDisk()))), budget)
    {
      var j := if journal.Some? then journal.value else Journal(1, []);
      ok := Perform([SaveJournal(j.(generation := j.generation + 1)), DropStaged, DropMeta], budget);
    }

    /** A missing or mismatched metadata file is an integrity error. */
    method LoadStagedCandidate() returns (s: Staged)
      ensures s == LoadStaged(OnDisk())
    {
      if staged.None? { return Nothing; }
      if meta.None? { return Torn; }
      if meta.value.fingerprint != FingerprintOf(staged.value) { return Torn; }
      return Candidate(staged.value, meta.value);
    }
  }

  /** Staging again repairs whatever an interrupted writer left behind. */
  lemma RestagingRepairs(d: Disk, b: Bytes, tree: string)
    ensures LoadStaged(AllWritten(d, StageScript(b, tree))) == Candidate(b, Meta(FingerprintOf(b), tree))
  {
    OneMoreWrite(d, StageScript(b, tree), 1);
    OneMoreWrite(d, StageScript(b, tree), 0);
    assert StageScript(b, tree)[..2] == StageScript(b, tree) && StageScript(b, tree)[..1] == [SaveStaged(b)];
  }

  /** Clearing never leaves a torn candidate: it stops with the old one, with
      bytes gone, or with nothing. */
  lemma ClearingNeverTears(d: Disk, budget: nat)
    requires LoadStaged(d) != Torn
    ensures LoadStaged(Interrupted(d, ClearScript(), budget)) == if budget == 0 then LoadStaged(d) else Nothing
  {
    var script := ClearScript();
    assert script[..0] == [];
    OneMoreWrite(d, script, 0);
    OneMoreWrite(d, script, 1);
    assert script[..2] == script;
  }

  /** Staging does tear, when it is cut off between its two writes and the
      metadata on disk is not that of the new bytes. */
  lemma StagingTears(d: Disk, b: Bytes, tree: string)
    ensures LoadStaged(Interrupted(d, StageScript(b, tree), 1)) == Torn <==>
      (d.meta.None? || d.meta.value.fingerprint != FingerprintOf(b))
  {
    OneMoreWrite(d, StageScript(b, tree), 0);
    var none: seq<Write> := [];
    assert StageScript(b, tree)[..0] == none;
  }
}
