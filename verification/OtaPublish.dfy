/**
 * Publication of builds behind an atomic pointer.  Every write of `publish` and `rollback` is a step, a
 * crash may follow any of them, and all other commands may run in between.
 */
module OtaPublish {
  import opened Prelude

  // ---------- build numbers ----------

  predicate Digit(c: char) {
    '0' <= c <= '9'
  }

  function DigitValue(c: char): nat
    requires Digit(c)
  {
    c as int - '0' as int
  }

  function Value(digits: string): nat
    requires forall i :: 0 <= i < |digits| ==> Digit(digits[i])
  {
    if digits == "" then 0 else 10 * Value(digits[..|digits| - 1]) + DigitValue(digits[|digits| - 1])
  }

  /** An integer between 1 and 9999 without leading zeros. */
  function Version(value: string): (r: Option<nat>)
    ensures r.Some? ==> 1 <= r.value <= 9999
  {
    if 1 <= |value| <= 4 && (forall i :: 0 <= i < |value| ==> Digit(value[i])) && value[0] != '0' then
      FourDigits(value);
      Some(Value(value))
    else None
  }

  lemma FourDigits(value: string)
    requires 1 <= |value| <= 4 && (forall i :: 0 <= i < |value| ==> Digit(value[i])) && value[0] != '0'
    ensures 1 <= Value(value) <= 9999
  {
    ValueBounds(value);
  }

  function Power(n: nat): nat {
    if n == 0 then 1 else 10 * Power(n - 1)
  }

  lemma {:induction false} ValueBounds(digits: string)
    requires digits != "" && (forall i :: 0 <= i < |digits| ==> Digit(digits[i])) && digits[0] != '0'
    ensures Power(|digits| - 1) <= Value(digits) < Power(|digits|)
  {
    var before := digits[..|digits| - 1];
    if before != "" {
      ValueBounds(before);
    } else {
      assert Value(before) == 0 && digits[|digits| - 1] == digits[0];
    }
  }

  /** `str` of a positive number. */
  function Decimal(n: nat): (r: string)
    ensures forall i :: 0 <= i < |r| ==> Digit(r[i])
  {
    if n == 0 then "" else Decimal(n / 10) + [(n % 10) as char + '0']
  }

  lemma {:induction false} DecimalValue(n: nat)
    ensures Value(Decimal(n)) == n && (n > 0 ==> Decimal(n) != "" && Decimal(n)[0] != '0')
  {
    if n > 0 {
      var before := Decimal(n / 10);
      DecimalValue(n / 10);
      assert Decimal(n)[..|Decimal(n)| - 1] == before;
      assert before == "" ==> n / 10 == 0;
    }
  }

  /** Writing and reading a build number agree exactly on the accepted range. */
  lemma VersionOfDecimal(n: nat)
    requires n > 0
    ensures Version(Decimal(n)) == if n <= 9999 then Some(n) else None
  {
    DecimalValue(n);
    ValueBounds(Decimal(n));
    PowerGrows(|Decimal(n)|);
  }

  lemma {:induction false} PowerGrows(k: nat)
    requires k > 0
    ensures k <= 4 ==> Power(k) <= 10000
    ensures k > 4 ==> Power(k - 1) >= 10000
  {
    assert Power(1) == 10 && Power(2) == 100 && Power(3) == 1000 && Power(4) == 10000;
    if k > 5 {
      PowerGrows(k - 1);
    }
  }

  // ---------- files and commands ----------

  /** `Torn`: created, but not completely written. */
  datatype File<+T> = Missing | Torn | Holds(content: T)

  datatype Artifact = Artifact(identifier: string, version: string, marketing: string, sha: string, size: nat)

  datatype App = App(identifier: string, version: string, marketing: string)

  /** Without a release: the installer from before releases. */
  datatype Record = Record(release: Option<string>, artifact: Artifact, revision: string)

  datatype Manifest = Manifest(release: string, identifier: string, version: string)

  /** The page is represented by the record it shows. */
  datatype Release = Release(ipa: File<Artifact>, manifest: File<Manifest>, page: File<Record>, record: File<Record>)

  datatype Build = Build(baseline: Option<Artifact>, identifier: string, version: string, marketing: string,
                         revision: string, archive: App)

  datatype Signed = Signed(build: Build, artifact: Artifact)

  datatype Receipt = Receipt(record: Record, previous: Option<Record>)

  datatype Work = Work(preflight: File<Option<Artifact>>, archive: File<App>, build: File<Build>, payload: bool,
                       ipa: File<Artifact>,
                       signed: File<Signed>, rollback: File<Option<Record>>, publication: File<Receipt>,
                       rolledBack: File<Record>)

  const NO_WORK := Work(Missing, Missing, Missing, false, Missing, Missing, Missing, Missing, Missing)
  const NO_RELEASE := Release(Missing, Missing, Missing, Missing)

  datatype Legacy = NoInstaller | Installer(artifact: Artifact) | PartialInstaller

  /** The holder of the publication lock; `pc` counts the writes done. */
  datatype Process =
    | Publishing(work: string, pc: nat, previous: Option<Record>, signed: Signed, record: Option<Record>)
    | Restoring(work: string, pc: nat, target: Record)

  /** A move of the pointer. */
  datatype Move =
    | Published(work: string, previous: Option<Record>, record: Record)
    | RolledBack(work: string, from: Record, to: Record)

  /** A `reconcile` that has read everything and is about to write the receipt, or is writing it. */
  datatype Claim = Claim(work: string, receipt: Receipt, created: bool)

  datatype State = State(identifier: string, legacy: Legacy, pointer: File<Record>, releases: map<string, Release>,
                         works: map<string, Work>, lock: Option<Process>, claims: map<nat, Claim>, serial: nat,
                         log: seq<Move>)

  function Initial(identifier: string, legacy: Legacy): State {
    State(identifier, legacy, Missing, map[], map[], None, map[], 0, [])
  }

  datatype Step =
    | Preflight(work: string)
    | Prepare(work: string, source: App, revision: string, writes: nat) // dies after so many writes
    | Sign(work: string, sha: string, size: nat, writes: nat)
    | Publish(work: string, ready: bool)                                // up to taking the lock
    | Rollback(work: string)                                            // up to taking the lock
    | Advance                                                           // the lock holder's next write
    | Crash                                                             // the lock holder dies
    | Reconcile(work: string)                                           // up to its first write
    | WriteReceipt(claim: nat)                                          // its next write
    | Abandon(claim: nat)                                               // it dies

  function At(s: State, work: string): Work {
    if work in s.works then s.works[work] else NO_WORK
  }

  function With(s: State, work: string, w: Work): State {
    s.(works := s.works[work := w])
  }

  datatype Selection = Unreadable | Selected(record: Option<Record>)

  /** What is published, after verifying it. */
  function Current(s: State): Selection {
    match s.pointer
    case Torn => Unreadable
    case Holds(r) =>
      if r.release.Some? && r.release.value in s.releases
         && s.releases[r.release.value].record == Holds(r) && s.releases[r.release.value].ipa == Holds(r.artifact)
         && Version(r.artifact.version).Some?
      then Selected(Some(r)) else Unreadable
    case Missing =>
      match s.legacy
      case NoInstaller => Selected(None)
      case Installer(a) => if Version(a.version).Some? then Selected(Some(Record(None, a, ""))) else Unreadable
      case PartialInstaller => Unreadable
  }

  function ArtifactOf(record: Option<Record>): Option<Artifact> {
    match record case Some(r) => Some(r.artifact) case None => None
  }

  /** `check_baseline` */
  predicate OnBaseline(s: State, build: Build) {
    Current(s).Selected? && ArtifactOf(Current(s).record) == build.baseline
  }

  // ---------- preparing and signing ----------

  function DoPreflight(s: State, work: string): State {
    match Current(s)
    case Unreadable => s
    case Selected(r) =>
      if r.Some? && r.value.artifact.identifier != s.identifier then s
      else With(s, work, At(s, work).(preflight := Holds(ArtifactOf(r))))
  }

  /** The next build number, unless the range is exhausted or the input is malformed. */
  function NextBuild(source: App, previous: Option<Artifact>): Option<nat> {
    match Version(source.version)
    case None => None
    case Some(own) =>
      if previous.Some? && Version(previous.value.version).None? then None
      else
        var before := if previous.Some? then Version(previous.value.version).value else 0;
        InRange((if own < before then before else own) + 1)
  }

  /** The number, if its decimal form is an accepted version. */
  function InRange(n: nat): Option<nat> {
    if Version(Decimal(n)).Some? then Some(n) else None
  }

  function BuildOf(source: App, previous: Option<Artifact>, next: nat, revision: string): Build {
    var version := Decimal(next);
    Build(previous, source.identifier, version, source.marketing, revision, source.(version := version))
  }

  function DoPrepare(s: State, work: string, source: App, revision: string, writes: nat): State {
    var w := At(s, work);
    if !w.preflight.Holds? || source.identifier != s.identifier || !w.archive.Missing? || !w.build.Missing? then s
    else match NextBuild(source, w.preflight.content)
      case None => s
      case Some(next) =>
        var build := BuildOf(source, w.preflight.content, next, revision);
        if writes == 0 then s
        else if writes == 1 then With(s, work, w.(archive := Torn))
        else if writes == 2 then With(s, work, w.(archive := Holds(build.archive)))
        else if writes == 3 then With(s, work, w.(archive := Holds(build.archive), build := Torn))
        else With(s, work, w.(archive := Holds(build.archive), build := Holds(build)))
  }

  predicate Signable(s: State, w: Work) {
    && w.build.Holds? && OnBaseline(s, w.build.content) && w.archive == Holds(w.build.content.archive)
    && !w.payload && w.ipa.Missing? && w.signed.Missing?
    && (var build := w.build.content;
        && build.archive == App(build.identifier, build.version, build.marketing)
        && build.identifier == s.identifier && Version(build.version).Some?)
  }

  function DoSign(s: State, work: string, sha: string, size: nat, writes: nat): State {
    var w := At(s, work);
    if !Signable(s, w) then s
    else
      var build := w.build.content;
      var artifact := Artifact(build.identifier, build.version, build.marketing, sha, size);
      var begun := w.(payload := true);
      if writes == 0 then With(s, work, begun)
      else if writes == 1 then With(s, work, begun.(ipa := Torn))
      else if writes == 2 then With(s, work, begun.(ipa := Holds(artifact)))
      else if writes == 3 then With(s, work, begun.(ipa := Holds(artifact), signed := Torn))
      else With(s, work, begun.(ipa := Holds(artifact), signed := Holds(Signed(build, artifact))))
  }

  // ---------- publishing ----------

  predicate Publishable(s: State, work: string, ready: bool) {
    var w := At(s, work);
    && ready && s.lock.None? && w.signed.Holds? && w.ipa == Holds(w.signed.content.artifact)
    && Version(w.signed.content.artifact.version).Some?
    && OnBaseline(s, w.signed.content.build)
    && (Current(s).record.None? || Current(s).record.value.release.Some?)
  }

  function DoPublish(s: State, work: string, ready: bool): State {
    if !Publishable(s, work, ready) then s
    else s.(lock := Some(Publishing(work, 0, Current(s).record, At(s, work).signed.content, None)))
  }

  function Unlock(s: State): State {
    s.(lock := None)
  }

  function ManifestOf(r: Record): Manifest
    requires r.release.Some?
  {
    Manifest(r.release.value, r.artifact.identifier, r.artifact.version)
  }

  function Released(s: State, work: string, release: Release): State {
    s.(releases := s.releases[work := release])
  }

  /** The package is in place: its metadata make the record. */
  function Packaged(s: State, p: Process): State
    requires p.Publishing? && p.work in s.releases
  {
    var ipa := At(s, p.work).ipa;
    var t := Released(s, p.work, s.releases[p.work].(ipa := ipa));
    if ipa.Holds? && ipa.content.identifier == s.identifier && Version(ipa.content.version).Some?
    then t.(lock := Some(p.(pc := 5, record := Some(Record(Some(p.work), ipa.content, p.signed.build.revision)))))
    else Unlock(t)
  }

  function Later(p: Process): Process {
    match p
    case Publishing(work, pc, previous, signed, record) => Publishing(work, pc + 1, previous, signed, record)
    case Restoring(work, pc, target) => Restoring(work, pc + 1, target)
  }

  /** The next write of a publication that created its release directory. */
  function Release1(s: State, p: Process): State
    requires p.Publishing? && 3 <= p.pc && p.work in s.releases
    requires p.pc >= 5 ==> p.record.Some? && p.record.value.release == Some(p.work)
  {
    var rel, t := s.releases[p.work], s.(lock := Some(Later(p)));
    if p.pc == 3 then Released(t, p.work, rel.(ipa := Torn))
    else if p.pc == 4 then Packaged(s, p)
    else if p.pc == 5 then Released(t, p.work, rel.(manifest := Torn))
    else if p.pc == 6 then Released(t, p.work, rel.(manifest := Holds(ManifestOf(p.record.value))))
    else if p.pc == 7 then Released(t, p.work, rel.(page := Torn))
    else if p.pc == 8 then Released(t, p.work, rel.(page := Holds(p.record.value)))
    else if p.pc == 9 then Released(t, p.work, rel.(record := Torn))
    else if p.pc == 10 then Released(t, p.work, rel.(record := Holds(p.record.value)))
    else if p.pc == 11
      then t.(pointer := Holds(p.record.value), log := s.log + [Published(p.work, p.previous, p.record.value)])
    else if p.pc == 12 then
      if At(s, p.work).publication.Missing? then With(t, p.work, At(s, p.work).(publication := Torn)) else Unlock(s)
    else Unlock(With(s, p.work, At(s, p.work).(publication := Holds(Receipt(p.record.value, p.previous)))))
  }

  /** Writing the rollback information and creating the directory fail when the name was used before. */
  function Publish1(s: State, p: Process): State
    requires p.Publishing? && p.pc < 3
  {
    var w, t := At(s, p.work), s.(lock := Some(Later(p)));
    if p.pc == 0 then (if w.rollback.Missing? then With(t, p.work, w.(rollback := Torn)) else Unlock(s))
    else if p.pc == 1 then With(t, p.work, w.(rollback := Holds(p.previous)))
    else if p.work in s.releases then Unlock(s)
    else Released(t, p.work, NO_RELEASE)
  }

  // ---------- reconciling and rolling back ----------

  predicate Restorable(s: State, work: string) {
    var w := At(s, work);
    && s.lock.None? && w.publication.Holds? && w.rollback.Holds? && w.rollback.content.Some?
    && Current(s).Selected? && Current(s).record.Some?
       && Current(s).record.value.release == w.publication.content.record.release
    && (var previous := w.rollback.content.value;
        && previous.release.Some? && previous.release.value in s.releases
        && s.releases[previous.release.value].ipa == Holds(previous.artifact)
           && Version(previous.artifact.version).Some?)
  }

  function DoRollback(s: State, work: string): State {
    if Restorable(s, work) then s.(lock := Some(Restoring(work, 0, At(s, work).rollback.content.value))) else s
  }

  function Restore1(s: State, p: Process): State
    requires p.Restoring? && (p.pc == 0 ==> s.pointer.Holds?)
  {
    var w, t := At(s, p.work), s.(lock := Some(Later(p)));
    if p.pc == 0 then t.(pointer := Holds(p.target), log := s.log + [RolledBack(p.work, s.pointer.content, p.target)])
    else if p.pc == 1 then (if w.rolledBack.Missing? then With(t, p.work, w.(rolledBack := Torn)) else Unlock(s))
    else Unlock(With(s, p.work, w.(rolledBack := Holds(p.target))))
  }

  predicate Reconcilable(s: State, work: string) {
    var w := At(s, work);
    && w.signed.Holds? && Current(s).Selected? && Current(s).record.Some?
    && (var selected := Current(s).record.value;
        selected.release == Some(work) && selected.artifact == w.signed.content.artifact
          && selected.revision == w.signed.content.build.revision)
    && w.rollback.Holds?
  }

  function ReceiptOf(s: State, work: string): Receipt
    requires Reconcilable(s, work)
  {
    Receipt(Current(s).record.value, At(s, work).rollback.content)
  }

  /** `reconcile` fails, finds the receipt in place, or goes on to write it. */
  datatype Reconciliation = Refused | InPlace(receipt: Receipt) | Writing(receipt: Receipt)

  /** An existing receipt is only compared; a torn one cannot be read. */
  function Reconciled(s: State, work: string): Reconciliation {
    if !Reconcilable(s, work) then Refused
    else
      var receipt := ReceiptOf(s, work);
      match At(s, work).publication
      case Missing => Writing(receipt)
      case Torn => Refused
      case Holds(existing) => if existing == receipt then InPlace(receipt) else Refused
  }

  /** `reconcile` takes no lock. */
  function DoReconcile(s: State, work: string): State {
    match Reconciled(s, work)
    case Writing(receipt) =>
      s.(claims := s.claims[s.serial := Claim(work, receipt, false)], serial := s.serial + 1)
    case _ => s
  }

  /** Creating the file fails when it exists by now. */
  function Claim1(s: State, k: nat): State
    requires k in s.claims
  {
    var c, w := s.claims[k], At(s, s.claims[k].work);
    if c.created then With(s, c.work, w.(publication := Holds(c.receipt))).(claims := s.claims - {k})
    else if w.publication.Missing?
      then With(s, c.work, w.(publication := Torn)).(claims := s.claims[k := c.(created := true)])
    else s.(claims := s.claims - {k})
  }

  // ---------- steps ----------

  predicate Enabled(s: State, step: Step) {
    match step
    case Advance =>
      && s.lock.Some?
      && (var p := s.lock.value;
          && (p.Publishing? && p.pc >= 3 ==> p.work in s.releases)
          && (p.Publishing? && p.pc >= 5 ==> p.record.Some? && p.record.value.release == Some(p.work))
          && (p.Restoring? && p.pc == 0 ==> s.pointer.Holds?))
    case WriteReceipt(k) => k in s.claims
    case _ => true
  }

  function Next(s: State, step: Step): State
    requires Enabled(s, step)
  {
    match step
    case Preflight(work) => DoPreflight(s, work)
    case Prepare(work, source, revision, writes) => DoPrepare(s, work, source, revision, writes)
    case Sign(work, sha, size, writes) => DoSign(s, work, sha, size, writes)
    case Publish(work, ready) => DoPublish(s, work, ready)
    case Rollback(work) => DoRollback(s, work)
    case Advance =>
      var p := s.lock.value;
      if p.Restoring? then Restore1(s, p) else if p.pc < 3 then Publish1(s, p) else Release1(s, p)
    case Crash => Unlock(s)
    case Reconcile(work) => DoReconcile(s, work)
    case WriteReceipt(k) => Claim1(s, k)
    case Abandon(k) => s.(claims := s.claims - {k})
  }

  // ---------- the invariant ----------

  /** The release holds the record and everything that belongs to it. */
  ghost predicate Complete(s: State, r: Record) {
    && r.release.Some? && r.release.value in s.releases
    && s.releases[r.release.value] == Release(Holds(r.artifact), Holds(ManifestOf(r)), Holds(r), Holds(r))
    && r.artifact.identifier == s.identifier && Version(r.artifact.version).Some?
  }

  predicate Above(version: string, baseline: Option<Artifact>) {
    && Version(version).Some?
    && (baseline.Some? ==>
         Version(baseline.value.version).Some? && Version(baseline.value.version).value < Version(version).value)
  }

  ghost predicate WorkOk(s: State, work: string) {
    var w := At(s, work);
    && (w.preflight.Holds? && w.preflight.content.Some? ==> Version(w.preflight.content.value.version).Some?)
    && (w.build.Holds? ==> Above(w.build.content.version, w.build.content.baseline))
    && (w.signed.Holds? ==>
          && w.ipa == Holds(w.signed.content.artifact)
             && w.signed.content.artifact.version == w.signed.content.build.version
          && Above(w.signed.content.build.version, w.signed.content.build.baseline))
    && (w.publication.Holds? ==>
          && w.rollback == Holds(w.publication.content.previous)
          && Published(work, w.publication.content.previous, w.publication.content.record) in s.log)
    && (!w.publication.Missing? ==> !w.rollback.Missing?)
  }

  /** Someone published the record. */
  ghost predicate WasPublished(log: seq<Move>, r: Record) {
    exists work, previous :: Published(work, previous, r) in log
  }

  predicate SignedFor(w: Work, record: Record) {
    w.signed.Holds? && w.signed.content.artifact == record.artifact
      && w.signed.content.build.revision == record.revision
  }

  ghost predicate MoveOk(s: State, m: Move) {
    match m
    case Published(work, previous, record) =>
      && Complete(s, record) && record.release == Some(work) && At(s, work).rollback == Holds(previous)
      && SignedFor(At(s, work), record)
      && Above(record.artifact.version, ArtifactOf(previous))
      && (previous.Some? ==> WasPublished(s.log, previous.value))
    case RolledBack(_, from, to) => exists work :: Published(work, Some(to), from) in s.log
  }

  function Pointed(pointer: File<Record>): Option<Record> {
    if pointer.Holds? then Some(pointer.content) else None
  }

  /** Before each move the pointer was where the previous move had put it. */
  predicate Chained(log: seq<Move>, pointer: Option<Record>) {
    if log == [] then pointer.None?
    else
      var m, before := log[|log| - 1], log[..|log| - 1];
      match m
      case Published(_, previous, record) => pointer == Some(record) && Chained(before, previous)
      case RolledBack(_, from, to) => pointer == Some(to) && Chained(before, Some(from))
  }

  /** How far the release directory of a publication has got. */
  ghost predicate Staged(s: State, p: Process)
    requires p.Publishing? && p.work in s.releases
  {
    var rel := s.releases[p.work];
    && (p.pc >= 5 ==>
         p.record.Some? && p.record.value == Record(Some(p.work), p.signed.artifact, p.signed.build.revision)
                      && rel.ipa == Holds(p.signed.artifact) && p.signed.artifact.identifier == s.identifier)
    && (p.pc >= 7 ==> rel.manifest == Holds(ManifestOf(p.record.value)))
    && (p.pc >= 9 ==> rel.page == Holds(p.record.value))
    && (p.pc >= 11 ==> rel.record == Holds(p.record.value))
    && (p.pc <= 10 ==> !rel.record.Holds?)
  }

  ghost predicate ProcessOk(s: State) {
    s.lock.Some? ==>
      var p := s.lock.value;
      match p
      case Publishing(work, pc, previous, signed, record) =>
        && pc <= 13 && At(s, work).signed == Holds(signed)
        && Above(signed.artifact.version, ArtifactOf(previous))
        && (pc <= 11 ==>
             Pointed(s.pointer) == previous && (forall m :: m in s.log && m.Published? ==> m.work != work || pc == 0))
        && (pc == 0 || !At(s, work).rollback.Missing?)
        && (pc >= 2 ==> At(s, work).rollback == Holds(previous))
        && (1 <= pc <= 11 ==> At(s, work).publication.Missing?)
        && (pc >= 3 ==> work in s.releases && Staged(s, p))
        && (pc >= 12 ==> Published(work, previous, record.value) in s.log)
      case Restoring(work, pc, target) =>
        && pc <= 2 && Complete(s, target)
        && (pc == 0 ==> s.pointer.Holds? && exists w :: Published(w, Some(target), s.pointer.content) in s.log)
  }

  ghost predicate PointerOk(s: State) {
    && !s.pointer.Torn?
    && (s.pointer.Holds? ==> Complete(s, s.pointer.content) && WasPublished(s.log, s.pointer.content))
    && Chained(s.log, Pointed(s.pointer))
  }

  /** A receipt about to be written is that of a move that happened. */
  ghost predicate ClaimsOk(s: State) {
    forall k :: k in s.claims ==>
        Published(s.claims[k].work, s.claims[k].receipt.previous, s.claims[k].receipt.record) in s.log
  }

  ghost predicate Inv(s: State) {
    && PointerOk(s) && ProcessOk(s) && ClaimsOk(s)
    && (forall work :: WorkOk(s, work))
    && (forall m :: m in s.log ==> MoveOk(s, m))
  }

  // ---------- what every step keeps ----------

  /** Complete releases, moves and rollback information stay. */
  ghost predicate Grows(s: State, t: State) {
    && (forall r :: Complete(s, r) ==> Complete(t, r))
    && (forall m :: m in s.log ==> m in t.log)
    && (forall work :: At(s, work).rollback.Holds? ==> At(t, work).rollback == At(s, work).rollback)
    && (forall work :: At(s, work).signed.Holds? ==> At(t, work).signed == At(s, work).signed)
  }

  lemma MovesStay(s: State, t: State)
    requires Grows(s, t) && ClaimsOk(s) && forall m :: m in s.log ==> MoveOk(s, m)
    ensures forall m :: m in s.log ==> MoveOk(t, m)
    ensures t.claims == s.claims ==> ClaimsOk(t)
  {
    forall m | m in s.log ensures MoveOk(t, m) {
      assert MoveOk(s, m);
    }
  }

  lemma WorksStay(s: State, t: State, except: string)
    requires forall work :: WorkOk(s, work)
    requires forall work :: work != except ==> At(t, work) == At(s, work)
    requires forall m :: m in s.log ==> m in t.log
    ensures forall work :: work != except ==> WorkOk(t, work)
  {
    forall work | work != except ensures WorkOk(t, work) {
      assert WorkOk(s, work);
    }
  }

  /** A step on the files of one work directory, apart from the lock holder's. */
  ghost predicate Private(s: State, work: string, w: Work) {
    && w.rollback == At(s, work).rollback && w.publication == At(s, work).publication
    && (At(s, work).signed.Holds? ==> w.signed == At(s, work).signed)
    && WorkOk(With(s, work, w), work)
  }

  lemma PrivateKeepsInv(s: State, work: string, w: Work)
    requires Inv(s) && Private(s, work, w)
    ensures Inv(With(s, work, w))
  {
    var t := With(s, work, w);
    assert forall other :: other != work ==> At(t, other) == At(s, other);
    WorksStay(s, t, work);
    MovesStay(s, t);
    PrivateProcess(s, work, w);
  }

  lemma PrivateProcess(s: State, work: string, w: Work)
    requires ProcessOk(s) && Private(s, work, w)
    ensures ProcessOk(With(s, work, w))
  {
    var t := With(s, work, w);
    assert forall other :: At(t, other).rollback == At(s, other).rollback;
    assert forall other :: At(t, other).publication == At(s, other).publication;
    assert forall other :: At(s, other).signed.Holds? ==> At(t, other).signed == At(s, other).signed;
    assert forall r :: Complete(s, r) ==> Complete(t, r);
  }

  lemma CurrentIsPublished(s: State)
    requires Inv(s)
    ensures s.pointer.Holds? ==> Current(s) == Selected(Some(s.pointer.content))
    ensures Current(s).Selected? && Current(s).record.Some? ==> Version(Current(s).record.value.artifact.version).Some?
  {
  }

  lemma PreflightKeepsInv(s: State, work: string)
    requires Inv(s)
    ensures Inv(DoPreflight(s, work))
  {
    CurrentIsPublished(s);
    assert WorkOk(s, work);
    if Current(s).Selected? {
      PrivateIf(s, work, At(s, work).(preflight := Holds(ArtifactOf(Current(s).record))));
    }
  }

  /** The obligations of a private step, one by one. */
  lemma PrivateIf(s: State, work: string, w: Work)
    requires Inv(s) && w.rollback == At(s, work).rollback && w.publication == At(s, work).publication
    requires At(s, work).signed.Holds? ==> w.signed == At(s, work).signed
    requires w.preflight.Holds? && w.preflight.content.Some? ==> Version(w.preflight.content.value.version).Some?
    requires w.build.Holds? ==> Above(w.build.content.version, w.build.content.baseline)
    requires w.signed.Holds? ==>
               && w.ipa == Holds(w.signed.content.artifact)
                  && w.signed.content.artifact.version == w.signed.content.build.version
               && Above(w.signed.content.build.version, w.signed.content.build.baseline)
    ensures Inv(With(s, work, w))
  {
    assert WorkOk(s, work);
    assert At(With(s, work, w), work) == w;
    PrivateKeepsInv(s, work, w);
  }

  /** The build number is above the source's and the baseline's, and refused only when the range is exhausted. */
  lemma NextBuildIsAbove(source: App, previous: Option<Artifact>)
    ensures var next := NextBuild(source, previous);
            && (next.Some? ==>
                  && next.value <= 9999 && Version(Decimal(next.value)) == Some(next.value)
                  && Version(source.version).Some? && Version(source.version).value < next.value
                  && Above(Decimal(next.value), previous))
            && (next.None? <==>
                  || Version(source.version).None? || (previous.Some? && Version(previous.value.version).None?)
                  || Version(source.version) == Some(9999)
                     || (previous.Some? && Version(previous.value.version) == Some(9999)))
  {
    if Version(source.version).Some? && (previous.Some? ==> Version(previous.value.version).Some?) {
      var own := Version(source.version).value;
      var before := if previous.Some? then Version(previous.value.version).value else 0;
      VersionOfDecimal((if own < before then before else own) + 1);
    }
  }

  lemma PrepareKeepsInv(s: State, work: string, source: App, revision: string, writes: nat)
    requires Inv(s)
    ensures Inv(DoPrepare(s, work, source, revision, writes))
  {
    var w := At(s, work);
    assert WorkOk(s, work);
    if w.preflight.Holds? && source.identifier == s.identifier && w.archive.Missing? && w.build.Missing? {
      NextBuildIsAbove(source, w.preflight.content);
      var next := NextBuild(source, w.preflight.content);
      if next.Some? {
        var build := BuildOf(source, w.preflight.content, next.value, revision);
        PrivateIf(s, work, w.(archive := Torn));
        PrivateIf(s, work, w.(archive := Holds(build.archive)));
        PrivateIf(s, work, w.(archive := Holds(build.archive), build := Torn));
        PrivateIf(s, work, w.(archive := Holds(build.archive), build := Holds(build)));
      }
    }
  }

  lemma SignKeepsInv(s: State, work: string, sha: string, size: nat, writes: nat)
    requires Inv(s)
    ensures Inv(DoSign(s, work, sha, size, writes))
  {
    var w := At(s, work);
    assert WorkOk(s, work);
    if Signable(s, w) {
      var build := w.build.content;
      var artifact := Artifact(build.identifier, build.version, build.marketing, sha, size);
      var begun := w.(payload := true);
      PrivateIf(s, work, begun);
      PrivateIf(s, work, begun.(ipa := Torn));
      PrivateIf(s, work, begun.(ipa := Holds(artifact)));
      PrivateIf(s, work, begun.(ipa := Holds(artifact), signed := Torn));
      PrivateIf(s, work, begun.(ipa := Holds(artifact), signed := Holds(Signed(build, artifact))));
    }
  }

  // ---------- the lock holder's steps ----------

  lemma UnlockKeepsInv(s: State)
    requires Inv(s)
    ensures Inv(Unlock(s))
  {
    var t := Unlock(s);
    assert forall work :: At(t, work) == At(s, work);
    forall work ensures WorkOk(t, work) {
      assert WorkOk(s, work);
    }
    MovesStay(s, t);
  }

  /** Taking the lock changes nothing else. */
  lemma LockKeepsInv(s: State, p: Process)
    requires Inv(s) && ProcessOk(s.(lock := Some(p)))
    ensures Inv(s.(lock := Some(p)))
  {
    var t := s.(lock := Some(p));
    assert forall work :: At(t, work) == At(s, work);
    forall work ensures WorkOk(t, work) {
      assert WorkOk(s, work);
    }
    MovesStay(s, t);
  }

  lemma PublishKeepsInv(s: State, work: string, ready: bool)
    requires Inv(s)
    ensures Inv(DoPublish(s, work, ready))
  {
    assert WorkOk(s, work);
    CurrentIsPublished(s);
    if Publishable(s, work, ready) {
      LockKeepsInv(s, Publishing(work, 0, Current(s).record, At(s, work).signed.content, None));
    }
  }

  /** The release that a publication is filling is not complete, so no record is lost. */
  lemma FillKeepsComplete(s: State, work: string, release: Release)
    requires work in s.releases ==> !s.releases[work].record.Holds?
    ensures forall r :: Complete(s, r) ==> Complete(Released(s, work, release), r)
  {
  }

  /** A write into the release directory, after which the publication is at `q`. */
  lemma FillKeepsInv(s: State, release: Release, q: Process)
    requires Inv(s) && s.lock.Some? && s.lock.value.Publishing? && q.Publishing? && q.work == s.lock.value.work
    requires q.work in s.releases ==> !s.releases[q.work].record.Holds?
    requires ProcessOk(Released(s, q.work, release).(lock := Some(q)))
    ensures Inv(Released(s, q.work, release).(lock := Some(q)))
  {
    var t := Released(s, q.work, release).(lock := Some(q));
    FillKeepsComplete(s, q.work, release);
    assert forall r :: Complete(s, r) ==> Complete(t, r);
    assert forall work :: At(t, work) == At(s, work);
    forall work ensures WorkOk(t, work) {
      assert WorkOk(s, work);
    }
    MovesStay(s, t);
  }

  lemma DirectoryKeepsInv(s: State)
    requires Inv(s) && s.lock.Some? && s.lock.value.Publishing? && s.lock.value.pc == 2
    ensures Inv(Publish1(s, s.lock.value))
  {
    var p := s.lock.value;
    if p.work in s.releases {
      UnlockKeepsInv(s);
    } else {
      FillKeepsInv(s, NO_RELEASE, Later(p));
    }
  }

  /** A write of rollback information: no move of this work directory exists yet. */
  lemma RollbackFileKeepsInv(s: State)
    requires Inv(s) && s.lock.Some? && s.lock.value.Publishing? && s.lock.value.pc < 2
    ensures Inv(Publish1(s, s.lock.value))
  {
    var p := s.lock.value;
    var w := At(s, p.work);
    assert WorkOk(s, p.work);
    if p.pc == 0 && !w.rollback.Missing? {
      UnlockKeepsInv(s);
    } else {
      var t := Publish1(s, p);
      NotMovedYet(s, p);
      assert At(t, p.work) == w.(rollback := At(t, p.work).rollback);
      assert forall other :: other != p.work ==> At(t, other) == At(s, other);
      WorksStay(s, t, p.work);
      assert forall r :: Complete(s, r) ==> Complete(t, r);
      OtherMovesStay(s, t, p.work);
    }
  }

  lemma NotMovedYet(s: State, p: Process)
    requires Inv(s) && s.lock == Some(p) && p.Publishing?
             && (p.pc == 1 || (p.pc == 0 && At(s, p.work).rollback.Missing?))
    ensures forall m :: m in s.log && m.Published? ==> m.work != p.work
    ensures At(s, p.work).publication.Missing?
  {
    assert WorkOk(s, p.work);
    forall m | m in s.log && m.Published? ensures m.work != p.work {
      assert MoveOk(s, m);
    }
  }

  lemma OtherMovesStay(s: State, t: State, work: string)
    requires forall m :: m in s.log ==> MoveOk(s, m) && (m.Published? ==> m.work != work)
    requires t.log == s.log && forall r :: Complete(s, r) ==> Complete(t, r)
    requires forall other :: other != work ==> At(t, other) == At(s, other)
    ensures forall m :: m in t.log ==> MoveOk(t, m)
  {
    forall m | m in t.log ensures MoveOk(t, m) {
      assert MoveOk(s, m);
    }
  }

  function Filled(rel: Release, p: Process): Release
    requires p.Publishing? && (p.pc >= 5 ==> p.record.Some? && p.record.value.release.Some?)
  {
    if p.pc == 3 then rel.(ipa := Torn)
    else if p.pc == 5 then rel.(manifest := Torn)
    else if p.pc == 6 then rel.(manifest := Holds(ManifestOf(p.record.value)))
    else if p.pc == 7 then rel.(page := Torn)
    else if p.pc == 8 then rel.(page := Holds(p.record.value))
    else if p.pc == 9 then rel.(record := Torn)
    else if p.pc == 10 then rel.(record := Holds(p.record.value))
    else rel
  }

  lemma FilledProcess(s: State)
    requires ProcessOk(s) && s.lock.Some? && s.lock.value.Publishing? && s.lock.value.pc in {3, 5, 6, 7, 8, 9, 10}
             && Enabled(s, Advance)
    ensures var p := s.lock.value;
            && ProcessOk(Released(s, p.work, Filled(s.releases[p.work], p)).(lock := Some(Later(p))))
            && Release1(s, p) == Released(s, p.work, Filled(s.releases[p.work], p)).(lock := Some(Later(p)))
  {
  }

  lemma FillingKeepsInv(s: State)
    requires Inv(s) && s.lock.Some? && s.lock.value.Publishing? && s.lock.value.pc in {3, 5, 6, 7, 8, 9, 10}
             && Enabled(s, Advance)
    ensures Inv(Release1(s, s.lock.value))
  {
    var p := s.lock.value;
    var rel := s.releases[p.work];
    FilledProcess(s);
    FillKeepsInv(s, Filled(rel, p), Later(p));
  }

  lemma PackagedKeepsInv(s: State)
    requires Inv(s) && s.lock.Some? && s.lock.value.Publishing? && s.lock.value.pc == 4 && Enabled(s, Advance)
    ensures Inv(Packaged(s, s.lock.value))
  {
    var p := s.lock.value;
    assert WorkOk(s, p.work);
    var rel := s.releases[p.work].(ipa := At(s, p.work).ipa);
    var q := p.(pc := 5, record := Some(Record(Some(p.work), p.signed.artifact, p.signed.build.revision)));
    if p.signed.artifact.identifier == s.identifier {
      FillKeepsInv(s, rel, q);
    } else {
      FillKeepsInv(s, rel, p);
      UnlockKeepsInv(Released(s, p.work, rel).(lock := Some(p)));
    }
  }

  /** Moving the pointer. */
  lemma PointerMoveKeepsInv(s: State)
    requires Inv(s) && s.lock.Some? && s.lock.value.Publishing? && s.lock.value.pc == 11 && Enabled(s, Advance)
    ensures Inv(Release1(s, s.lock.value))
  {
    var p := s.lock.value;
    var t := Release1(s, p);
    var m := Published(p.work, p.previous, p.record.value);
    assert t.log[..|t.log| - 1] == s.log && t.log[|t.log| - 1] == m;
    assert forall work :: At(t, work) == At(s, work);
    assert forall r :: Complete(s, r) ==> Complete(t, r);
    WorksStay(s, t, p.work);
    assert WorkOk(s, p.work);
    MovesStay(s, t);
    PublishedIsOk(s, t);
    MovedPointer(s, t);
  }

  lemma MovedPointer(s: State, t: State)
    requires PointerOk(s) && ProcessOk(s) && s.lock.Some? && s.lock.value.Publishing? && s.lock.value.pc == 11
             && Enabled(s, Advance)
    requires t == Release1(s, s.lock.value)
    requires MoveOk(t, Published(s.lock.value.work, s.lock.value.previous, s.lock.value.record.value))
    ensures PointerOk(t) && ProcessOk(t)
  {
    var p := s.lock.value;
    var m := Published(p.work, p.previous, p.record.value);
    assert t.log[..|t.log| - 1] == s.log && t.log[|t.log| - 1] == m;
    assert m in t.log;
  }

  lemma PublishedIsOk(s: State, t: State)
    requires Inv(s) && s.lock.Some? && s.lock.value.Publishing? && s.lock.value.pc == 11 && Enabled(s, Advance)
    requires t == Release1(s, s.lock.value)
    ensures MoveOk(t, Published(s.lock.value.work, s.lock.value.previous, s.lock.value.record.value))
  {
    var p := s.lock.value;
    assert s.releases[p.work]
           == Release(Holds(p.record.value.artifact), Holds(ManifestOf(p.record.value)), Holds(p.record.value),
               Holds(p.record.value));
    if p.previous.Some? {
      var work, previous :| Published(work, previous, p.previous.value) in s.log;
      assert Published(work, previous, p.previous.value) in t.log;
    }
  }

  /** A write of the receipt file, with whatever becomes of the lock. */
  lemma ReceiptFileKeepsInv(s: State, work: string, file: File<Receipt>, lock: Option<Process>)
    requires Inv(s) && !At(s, work).rollback.Missing?
    requires file.Holds? ==>
               && At(s, work).rollback == Holds(file.content.previous)
               && Published(work, file.content.previous, file.content.record) in s.log
    requires ProcessOk(With(s, work, At(s, work).(publication := file)).(lock := lock))
    ensures Inv(With(s, work, At(s, work).(publication := file)).(lock := lock))
  {
    var w := At(s, work);
    var t := With(s, work, w.(publication := file)).(lock := lock);
    assert WorkOk(s, work);
    assert At(t, work) == w.(publication := file);
    assert forall other :: other != work ==> At(t, other) == At(s, other);
    WorksStay(s, t, work);
    assert forall r :: Complete(s, r) ==> Complete(t, r);
    MovesStay(s, t);
  }

  lemma ReceiptKeepsInv(s: State)
    requires Inv(s) && s.lock.Some? && s.lock.value.Publishing? && s.lock.value.pc >= 12 && Enabled(s, Advance)
    ensures Inv(Release1(s, s.lock.value))
  {
    var p := s.lock.value;
    if p.pc > 12 {
      ReceiptFileKeepsInv(s, p.work, Holds(Receipt(p.record.value, p.previous)), None);
    } else if At(s, p.work).publication.Missing? {
      ReceiptFileKeepsInv(s, p.work, Torn, Some(Later(p)));
    } else {
      UnlockKeepsInv(s);
    }
  }

  lemma RollbackKeepsInv(s: State, work: string)
    requires Inv(s)
    ensures Inv(DoRollback(s, work))
  {
    if Restorable(s, work) {
      RestorableMeans(s, work);
      LockKeepsInv(s, Restoring(work, 0, At(s, work).rollback.content.value));
    }
  }

  /** The pointer is at what this work directory published, and the target is what it replaced. */
  lemma RestorableMeans(s: State, work: string)
    requires Inv(s) && Restorable(s, work)
    ensures var target := At(s, work).rollback.content.value;
            && s.pointer.Holds? && Published(work, Some(target), s.pointer.content) in s.log && Complete(s, target)
  {
    var w := At(s, work);
    var target := w.rollback.content.value;
    var published := w.publication.content.record;
    assert WorkOk(s, work);
    assert MoveOk(s, Published(work, Some(target), published));
    assert s.pointer.Holds? && s.pointer.content == published;
    var other, earlier :| Published(other, earlier, target) in s.log;
    assert MoveOk(s, Published(other, earlier, target));
  }

  lemma RestoreKeepsInv(s: State)
    requires Inv(s) && s.lock.Some? && s.lock.value.Restoring? && Enabled(s, Advance)
    ensures Inv(Restore1(s, s.lock.value))
  {
    var p := s.lock.value;
    if p.pc == 0 {
      RestorePointer(s);
    } else if p.pc == 1 && !At(s, p.work).rolledBack.Missing? {
      UnlockKeepsInv(s);
    } else {
      var w := At(s, p.work);
      assert WorkOk(s, p.work);
      var file := if p.pc == 1 then Torn else Holds(p.target);
      PrivateIf(s, p.work, w.(rolledBack := file));
      var u := With(s, p.work, w.(rolledBack := file));
      if p.pc == 1 {
        LockKeepsInv(u, Later(p));
      } else {
        UnlockKeepsInv(u);
      }
    }
  }

  lemma RestorePointer(s: State)
    requires Inv(s) && s.lock.Some? && s.lock.value.Restoring? && s.lock.value.pc == 0 && Enabled(s, Advance)
    ensures Inv(Restore1(s, s.lock.value))
  {
    var t := Restore1(s, s.lock.value);
    RestoreGrows(s, t);
    RestoredIsOk(s, t);
  }

  lemma RestoreGrows(s: State, t: State)
    requires Inv(s) && s.lock.Some? && s.lock.value.Restoring? && s.lock.value.pc == 0 && Enabled(s, Advance)
    requires t == Restore1(s, s.lock.value)
    ensures (forall work :: WorkOk(t, work)) && (forall m :: m in s.log ==> MoveOk(t, m)) && ProcessOk(t)
  {
    assert forall work :: At(t, work) == At(s, work);
    assert forall r :: Complete(s, r) ==> Complete(t, r);
    forall work ensures WorkOk(t, work) {
      assert WorkOk(s, work);
    }
    MovesStay(s, t);
  }

  lemma RestoredIsOk(s: State, t: State)
    requires Inv(s) && s.lock.Some? && s.lock.value.Restoring? && s.lock.value.pc == 0 && Enabled(s, Advance)
    requires t == Restore1(s, s.lock.value)
    ensures MoveOk(t, RolledBack(s.lock.value.work, s.pointer.content, s.lock.value.target)) && PointerOk(t)
  {
    var p := s.lock.value;
    assert t.log[..|t.log| - 1] == s.log;
    var w :| Published(w, Some(p.target), s.pointer.content) in s.log;
    assert Published(w, Some(p.target), s.pointer.content) in t.log;
    assert MoveOk(s, Published(w, Some(p.target), s.pointer.content));
    var other, earlier :| Published(other, earlier, p.target) in s.log;
    assert Published(other, earlier, p.target) in t.log;
    assert Complete(t, p.target) by {
      assert Complete(s, p.target);
    }
  }

  /** The receipt that `publish` would have written. */
  lemma ReconcilableMeans(s: State, work: string)
    requires Inv(s) && Reconcilable(s, work)
    ensures s.pointer.Holds? && Published(work, At(s, work).rollback.content, s.pointer.content) in s.log
  {
    var other, previous :| Published(other, previous, s.pointer.content) in s.log;
    assert MoveOk(s, Published(other, previous, s.pointer.content));
  }

  /** Changes of the claims disturb nothing else. */
  lemma ClaimsKeepInv(s: State, claims: map<nat, Claim>, serial: nat)
    requires Inv(s) && ClaimsOk(s.(claims := claims))
    ensures Inv(s.(claims := claims, serial := serial))
  {
    var t := s.(claims := claims, serial := serial);
    assert forall work :: At(t, work) == At(s, work);
    assert forall r :: Complete(s, r) ==> Complete(t, r);
    forall work ensures WorkOk(t, work) {
      assert WorkOk(s, work);
    }
    MovesStay(s, t);
  }

  lemma ReconcileKeepsInv(s: State, work: string)
    requires Inv(s)
    ensures Inv(DoReconcile(s, work))
  {
    if Reconcilable(s, work) && At(s, work).publication.Missing? {
      ReconcilableMeans(s, work);
      CurrentIsPublished(s);
      ClaimsKeepInv(s, s.claims[s.serial := Claim(work, ReceiptOf(s, work), false)], s.serial + 1);
    }
  }

  lemma WriteReceiptKeepsInv(s: State, k: nat)
    requires Inv(s) && k in s.claims
    ensures Inv(Claim1(s, k))
  {
    var c := s.claims[k];
    if c.created {
      ClaimedReceiptKeepsInv(s, k, Holds(c.receipt), s.claims - {k});
    } else if At(s, c.work).publication.Missing? {
      ClaimedReceiptKeepsInv(s, k, Torn, s.claims[k := c.(created := true)]);
    } else {
      ClaimsKeepInv(s, s.claims - {k}, s.serial);
    }
  }

  lemma ClaimedReceiptKeepsInv(s: State, k: nat, file: File<Receipt>, claims: map<nat, Claim>)
    requires Inv(s) && k in s.claims && (file.Holds? ==> file.content == s.claims[k].receipt)
    requires forall i :: i in claims ==>
               i in s.claims && claims[i].work == s.claims[i].work && claims[i].receipt == s.claims[i].receipt
    ensures var c := s.claims[k]; Inv(With(s, c.work, At(s, c.work).(publication := file)).(claims := claims))
  {
    var c := s.claims[k];
    assert MoveOk(s, Published(c.work, c.receipt.previous, c.receipt.record));
    ReceiptProcess(s, c.work, file);
    ReceiptFileKeepsInv(s, c.work, file, s.lock);
    ClaimsKeepInv(With(s, c.work, At(s, c.work).(publication := file)).(lock := s.lock), claims, s.serial);
  }

  /** The lock holder is not about to move the pointer to a release that has been published before. */
  lemma ReceiptProcess(s: State, work: string, file: File<Receipt>)
    requires Inv(s) && At(s, work).rollback.Holds?
    requires exists previous, record :: Published(work, previous, record) in s.log
    ensures ProcessOk(With(s, work, At(s, work).(publication := file)).(lock := s.lock))
  {
    var t := With(s, work, At(s, work).(publication := file)).(lock := s.lock);
    assert forall other :: other != work ==> At(t, other) == At(s, other);
    assert At(t, work) == At(s, work).(publication := file);
    assert forall r :: Complete(s, r) ==> Complete(t, r);
  }

  lemma AdvanceKeepsInv(s: State)
    requires Inv(s) && Enabled(s, Advance)
    ensures Inv(Next(s, Advance))
  {
    var p := s.lock.value;
    if p.Restoring? {
      RestoreKeepsInv(s);
    } else if p.pc < 2 {
      RollbackFileKeepsInv(s);
    } else if p.pc == 2 {
      DirectoryKeepsInv(s);
    } else if p.pc == 4 {
      PackagedKeepsInv(s);
    } else if p.pc == 11 {
      PointerMoveKeepsInv(s);
    } else if p.pc >= 12 {
      ReceiptKeepsInv(s);
    } else {
      FillingKeepsInv(s);
    }
  }

  lemma StepKeepsInv(s: State, step: Step)
    requires Inv(s) && Enabled(s, step)
    ensures Inv(Next(s, step))
  {
    match step
    case Preflight(work) => PreflightKeepsInv(s, work);
    case Prepare(work, source, revision, writes) => PrepareKeepsInv(s, work, source, revision, writes);
    case Sign(work, sha, size, writes) => SignKeepsInv(s, work, sha, size, writes);
    case Publish(work, ready) => PublishKeepsInv(s, work, ready);
    case Rollback(work) => RollbackKeepsInv(s, work);
    case Advance => AdvanceKeepsInv(s);
    case Crash => UnlockKeepsInv(s);
    case Reconcile(work) => ReconcileKeepsInv(s, work);
    case WriteReceipt(k) => WriteReceiptKeepsInv(s, k);
    case Abandon(k) => ClaimsKeepInv(s, s.claims - {k}, s.serial);
  }

  // ---------- every run ----------

  ghost predicate Follows(s: State, steps: seq<Step>, t: State)
    decreases |steps|
  {
    if steps == [] then s == t else Enabled(s, steps[0]) && Follows(Next(s, steps[0]), steps[1..], t)
  }

  lemma {:induction false} RunKeepsInv(s: State, steps: seq<Step>, t: State)
    requires Inv(s) && Follows(s, steps, t)
    ensures Inv(t)
    decreases |steps|
  {
    if steps != [] {
      StepKeepsInv(s, steps[0]);
      RunKeepsInv(Next(s, steps[0]), steps[1..], t);
    }
  }

  ghost predicate Reachable(s: State) {
    exists identifier, legacy, steps :: Follows(Initial(identifier, legacy), steps, s)
  }

  lemma ReachableInv(s: State)
    requires Reachable(s)
    ensures Inv(s)
  {
    var identifier, legacy, steps :| Follows(Initial(identifier, legacy), steps, s);
    RunKeepsInv(Initial(identifier, legacy), steps, s);
  }

  /** After any step, and hence after any crash, current.json names a complete release that `current` accepts. */
  lemma PointerIsComplete(s: State)
    requires Reachable(s)
    ensures !s.pointer.Torn?
    ensures s.pointer.Holds? ==> Complete(s, s.pointer.content) && Current(s) == Selected(Some(s.pointer.content))
  {
    ReachableInv(s);
  }

  lemma AdvanceKeepsReleases(s: State, r: Record)
    requires Inv(s) && Enabled(s, Advance) && Complete(s, r)
    ensures Complete(Next(s, Advance), r) && Next(s, Advance).releases[r.release.value] == s.releases[r.release.value]
  {
    var p := s.lock.value;
    var id := r.release.value;
    var t := Next(s, Advance);
    assert t.identifier == s.identifier;
    if p.Restoring? {
      assert t.releases == s.releases;
    } else if p.pc < 3 {
      PublishTouches(s, p, id);
    } else {
      ReleaseTouches(s, p, id);
    }
  }

  lemma PublishTouches(s: State, p: Process, id: string)
    requires p.Publishing? && p.pc < 3 && id in s.releases
    ensures var t := Publish1(s, p);
            id in t.releases && t.releases[id] == s.releases[id] && t.identifier == s.identifier
  {
  }

  lemma ReleaseTouches(s: State, p: Process, id: string)
    requires p.Publishing? && 3 <= p.pc && p.work in s.releases && id in s.releases && (p.pc <= 10 ==> id != p.work)
    requires p.pc >= 5 ==> p.record.Some? && p.record.value.release == Some(p.work)
    ensures var t := Release1(s, p);
            id in t.releases && t.releases[id] == s.releases[id] && t.identifier == s.identifier
  {
  }

  lemma StepKeepsReleases(s: State, step: Step, r: Record)
    requires Inv(s) && Enabled(s, step) && Complete(s, r)
    ensures Complete(Next(s, step), r) && Next(s, step).releases[r.release.value] == s.releases[r.release.value]
  {
    if step.Advance? {
      AdvanceKeepsReleases(s, r);
    } else {
      OthersKeepReleases(s, step);
    }
  }

  lemma OthersKeepReleases(s: State, step: Step)
    requires Enabled(s, step) && !step.Advance?
    ensures Next(s, step).releases == s.releases && Next(s, step).identifier == s.identifier
  {
    match step
    case Preflight(work) => PreflightIsAside(s, work, work);
    case Prepare(work, source, revision, writes) => PrepareIsAside(s, work, source, revision, writes, work);
    case Sign(work, sha, size, writes) => SignIsAside(s, work, sha, size, writes, work);
    case _ =>
  }

  /** Only the work directory changes, and not its receipt. */
  predicate Aside(s: State, t: State, work: string) {
    && t.releases == s.releases && t.identifier == s.identifier && t.claims == s.claims && t.lock == s.lock
    && At(t, work).publication == At(s, work).publication
  }

  lemma PreflightIsAside(s: State, work: string, other: string)
    ensures Aside(s, DoPreflight(s, work), other)
  {
  }

  lemma PrepareIsAside(s: State, work: string, source: App, revision: string, writes: nat, other: string)
    ensures Aside(s, DoPrepare(s, work, source, revision, writes), other)
  {
  }

  lemma SignIsAside(s: State, work: string, sha: string, size: nat, writes: nat, other: string)
    ensures Aside(s, DoSign(s, work, sha, size, writes), other)
  {
  }

  /** A complete release never changes again. */
  lemma {:induction false} ReleasesAreImmutable(s: State, steps: seq<Step>, t: State, r: Record)
    requires Reachable(s) && Follows(s, steps, t) && Complete(s, r)
    ensures Complete(t, r) && t.releases[r.release.value] == s.releases[r.release.value]
  {
    ReachableInv(s);
    RunKeepsReleases(s, steps, t, r);
  }

  lemma {:induction false} RunKeepsReleases(s: State, steps: seq<Step>, t: State, r: Record)
    requires Inv(s) && Follows(s, steps, t) && Complete(s, r)
    ensures Complete(t, r) && t.releases[r.release.value] == s.releases[r.release.value]
    decreases |steps|
  {
    if steps != [] {
      StepKeepsReleases(s, steps[0], r);
      StepKeepsInv(s, steps[0]);
      RunKeepsReleases(Next(s, steps[0]), steps[1..], t, r);
    }
  }

  /** Every publication raises the build number above that of the build it replaces, within 9999. */
  lemma BuildNumbersRise(s: State, m: Move)
    requires Reachable(s) && m in s.log && m.Published?
    ensures Version(m.record.artifact.version).Some? && Version(m.record.artifact.version).value <= 9999
    ensures m.previous.Some? ==>
              && Version(m.previous.value.artifact.version).Some?
              && Version(m.previous.value.artifact.version).value < Version(m.record.artifact.version).value
  {
    ReachableInv(s);
    assert MoveOk(s, m);
  }

  /** The moves form one chain: each replaced exactly what the one before it had put in place. */
  lemma MovesAreAChain(s: State)
    requires Reachable(s)
    ensures Chained(s.log, Pointed(s.pointer))
  {
    ReachableInv(s);
  }

  /**
   * With the pointer at the release of a work directory, wherever `publish` was interrupted, `reconcile` goes on to
   * write a missing receipt, finds an existing one in place, and refuses a torn one.  The receipt is that of the move
   * that put the pointer there, and two writes leave exactly it.
   */
  lemma ReconcileWritesTheReceipt(s: State, work: string)
    requires Reachable(s) && s.pointer.Holds? && s.pointer.content.release == Some(work)
    ensures Reconcilable(s, work) && Published(work, ReceiptOf(s, work).previous, s.pointer.content) in s.log
    ensures ReceiptOf(s, work).record == s.pointer.content
    ensures Reconciled(s, work) ==
            match At(s, work).publication
            case Missing => Writing(ReceiptOf(s, work))
            case Torn => Refused
            case Holds(_) => InPlace(ReceiptOf(s, work))
    ensures Reconciled(s, work).Writing? ==>
              var t := DoReconcile(s, work);
              && s.serial in t.claims && s.serial in Claim1(t, s.serial).claims
              && At(Claim1(Claim1(t, s.serial), s.serial), work).publication == Holds(ReceiptOf(s, work))
  {
    ReachableInv(s);
    var other, earlier :| Published(other, earlier, s.pointer.content) in s.log;
    assert MoveOk(s, Published(other, earlier, s.pointer.content));
    CurrentIsPublished(s);
    assert Reconcilable(s, work);
    ReconcilableMeans(s, work);
    assert WorkOk(s, work);
    if At(s, work).publication.Holds? {
      var receipt := At(s, work).publication.content;
      assert MoveOk(s, Published(work, receipt.previous, receipt.record));
      assert MoveOk(s, Published(work, ReceiptOf(s, work).previous, s.pointer.content));
    }
  }

  /** `reconcile` accepts exactly when the pointer is at the release and its receipt is not torn. */
  lemma ReconcileAcceptsExactly(s: State, work: string)
    requires Reachable(s)
    ensures !Reconciled(s, work).Refused? <==>
            && s.pointer.Holds? && s.pointer.content.release == Some(work) && !At(s, work).publication.Torn?
  {
    if s.pointer.Holds? && s.pointer.content.release == Some(work) {
      ReconcileWritesTheReceipt(s, work);
    }
  }

  /** A command that created the receipt is still to complete it. */
  ghost predicate Completing(s: State, work: string) {
    || (s.lock.Some? && s.lock.value.Publishing? && s.lock.value.work == work && s.lock.value.pc > 12)
    || exists k :: k in s.claims && s.claims[k].work == work && s.claims[k].created
  }

  /** The receipt is torn, and that is not going to change. */
  ghost predicate Spoilt(s: State, work: string) {
    At(s, work).publication.Torn? && !Completing(s, work)
  }

  lemma PublishKeepsTorn(s: State, work: string)
    requires Enabled(s, Advance) && s.lock.value.Publishing? && Spoilt(s, work)
    ensures Spoilt(Next(s, Advance), work)
  {
    var p, t := s.lock.value, Next(s, Advance);
    assert t.claims == s.claims;
    if p.pc < 3 {
      assert t == Publish1(s, p);
    } else {
      assert t == Release1(s, p);
    }
  }

  lemma RestoreKeepsTorn(s: State, work: string)
    requires Enabled(s, Advance) && s.lock.value.Restoring? && Spoilt(s, work)
    ensures Spoilt(Next(s, Advance), work)
  {
    assert Next(s, Advance).claims == s.claims;
  }

  lemma ClaimKeepsTorn(s: State, k: nat, work: string)
    requires k in s.claims && Spoilt(s, work)
    ensures Spoilt(Claim1(s, k), work)
  {
    var t := Claim1(s, k);
    forall i | i in t.claims ensures !(t.claims[i].work == work && t.claims[i].created) {
      assert i in s.claims ==> !(s.claims[i].work == work && s.claims[i].created);
    }
  }

  /** Commands that leave receipts and claims alone, and at most take the lock. */
  lemma QuietKeepsTorn(s: State, t: State, work: string)
    requires Spoilt(s, work) && At(t, work).publication == At(s, work).publication
    requires forall k :: k in t.claims && t.claims[k].created ==> k in s.claims && s.claims[k] == t.claims[k]
    requires t.lock == s.lock || t.lock.None? || t.lock.value.Restoring? || t.lock.value.pc == 0
    ensures Spoilt(t, work)
  {
  }

  lemma StepKeepsTorn(s: State, step: Step, work: string)
    requires Enabled(s, step) && Spoilt(s, work)
    ensures Spoilt(Next(s, step), work)
  {
    match step
    case Advance =>
      if s.lock.value.Publishing? {
        PublishKeepsTorn(s, work);
      } else {
        RestoreKeepsTorn(s, work);
      }
    case WriteReceipt(k) => ClaimKeepsTorn(s, k, work);
    case Preflight(other) => PreflightIsAside(s, other, work);
    case Prepare(other, source, revision, writes) => PrepareIsAside(s, other, source, revision, writes, work);
    case Sign(other, sha, size, writes) => SignIsAside(s, other, sha, size, writes, work);
    case _ => QuietKeepsTorn(s, Next(s, step), work);
  }

  /** A torn receipt that nobody is completing stays torn, whatever is run, and `reconcile` refuses it for good. */
  lemma {:induction false} TornStays(s: State, steps: seq<Step>, t: State, work: string)
    requires Follows(s, steps, t) && Spoilt(s, work)
    ensures Spoilt(t, work) && Reconciled(t, work) == Refused
    decreases |steps|
  {
    if steps != [] {
      StepKeepsTorn(s, steps[0], work);
      TornStays(Next(s, steps[0]), steps[1..], t, work);
    }
  }

  /** A receipt always is the one of the move it is for. */
  lemma ReceiptsAreTrue(s: State, work: string)
    requires Reachable(s) && At(s, work).publication.Holds?
    ensures Published(work, At(s, work).publication.content.previous, At(s, work).publication.content.record) in s.log
  {
    ReachableInv(s);
    assert WorkOk(s, work);
  }

  /**
   * What `rollback` insists on beyond a free lock, a receipt and an earlier release: nobody has moved the pointer
   * since.
   */
  lemma RollbackExactly(s: State, work: string)
    requires Reachable(s) && s.lock.None? && At(s, work).publication.Holds? && At(s, work).rollback.Holds?
             && At(s, work).rollback.content.Some?
    ensures Restorable(s, work) <==> s.pointer == Holds(At(s, work).publication.content.record)
  {
    ReachableInv(s);
    assert WorkOk(s, work);
    var receipt := At(s, work).publication.content;
    var target := At(s, work).rollback.content.value;
    assert MoveOk(s, Published(work, receipt.previous, receipt.record));
    var other, earlier :| Published(other, earlier, target) in s.log;
    assert MoveOk(s, Published(other, earlier, target));
  }

  /** And its first write puts the pointer back to exactly what the publication had replaced. */
  lemma RollbackRestores(s: State, work: string)
    requires Reachable(s) && Restorable(s, work)
    ensures var t := Next(s, Rollback(work));
            && Enabled(t, Advance)
            && exists target ::
                 && Published(work, Some(target), s.pointer.content) in s.log
                 && Next(t, Advance).pointer == Holds(target) && Complete(s, target)
  {
    ReachableInv(s);
    RestorableMeans(s, work);
    assert Next(Next(s, Rollback(work)), Advance).pointer == Holds(At(s, work).rollback.content.value);
  }

  // ---------- an undisturbed publication ----------

  /** The lock holder can always go on. */
  lemma HolderIsNeverStuck(s: State)
    requires Reachable(s) && s.lock.Some?
    ensures Enabled(s, Advance)
  {
    ReachableInv(s);
  }

  /** Nothing stands in the way of the publication that holds the lock. */
  ghost predicate OnTrack(s: State) {
    && s.lock.Some? && s.lock.value.Publishing? && s.lock.value.pc <= 13
    && (var p, w := s.lock.value, At(s, s.lock.value.work);
        && (p.pc == 0 ==> w.rollback.Missing?)
        && (p.pc <= 2 ==> p.work !in s.releases)
        && (p.pc <= 12 ==> w.publication.Missing?)
        && (p.pc == 13 ==> w.publication.Torn?)
        && p.signed.artifact.identifier == s.identifier
        && (p.pc >= 12 ==> p.record.Some? && s.pointer == Holds(p.record.value)))
  }

  lemma TrackContinues(s: State)
    requires Inv(s) && OnTrack(s) && s.lock.value.pc < 13
    ensures Enabled(s, Advance)
    ensures var p, t := s.lock.value, Next(s, Advance);
            && OnTrack(t) && t.lock.value.pc == p.pc + 1 && t.lock.value.work == p.work
            && t.lock.value.previous == p.previous && t.lock.value.signed == p.signed && t.claims == s.claims
  {
    assert WorkOk(s, s.lock.value.work);
    if s.lock.value.pc < 3 {
      EarlyTrack(s);
    } else {
      LateTrack(s);
    }
  }

  lemma EarlyTrack(s: State)
    requires OnTrack(s) && ProcessOk(s) && s.lock.value.pc < 3
    ensures var p, t := s.lock.value, Publish1(s, s.lock.value);
            && OnTrack(t) && t.lock.value == Later(p) && t.claims == s.claims
  {
  }

  lemma LateTrack(s: State)
    requires OnTrack(s) && ProcessOk(s) && WorkOk(s, s.lock.value.work) && 3 <= s.lock.value.pc < 13
    ensures Enabled(s, Advance)
    ensures var p, t := s.lock.value, Release1(s, s.lock.value);
            && OnTrack(t) && t.lock.value.pc == p.pc + 1 && t.lock.value.work == p.work
            && t.lock.value.previous == p.previous && t.lock.value.signed == p.signed && t.claims == s.claims
  {
  }

  function Writes(s: State, n: nat): State
    decreases n
  {
    if n > 0 && Enabled(s, Advance) then Writes(Next(s, Advance), n - 1) else s
  }

  /** The signed package is current, and the receipt says what it replaced. */
  predicate Done(t: State, work: string, signed: Signed, previous: Option<Record>) {
    var record := Record(Some(work), signed.artifact, signed.build.revision);
    t.lock.None? && t.pointer == Holds(record) && At(t, work).publication == Holds(Receipt(record, previous))
  }

  lemma {:induction false} TrackEnds(s: State, n: nat)
    requires Inv(s) && OnTrack(s) && n == 14 - s.lock.value.pc
    ensures Done(Writes(s, n), s.lock.value.work, s.lock.value.signed, s.lock.value.previous)
    decreases n
  {
    if n > 1 {
      TrackContinues(s);
      StepKeepsInv(s, Advance);
      TrackEnds(Next(s, Advance), n - 1);
    } else {
      LastWrite(s);
    }
  }

  lemma LastWrite(s: State)
    requires Inv(s) && OnTrack(s) && s.lock.value.pc == 13
    ensures Done(Writes(s, 1), s.lock.value.work, s.lock.value.signed, s.lock.value.previous)
  {
    assert Writes(Next(s, Advance), 0) == Next(s, Advance);
  }

  /**
   * Without a crash the fourteen writes of a publication under an unused name put the signed package in
   * place, move the pointer to it and leave the receipt.
   */
  lemma PublishCompletes(s: State, work: string)
    requires Reachable(s) && Publishable(s, work, true) && At(s, work).rollback.Missing? && work !in s.releases
    requires At(s, work).signed.content.artifact.identifier == s.identifier
    ensures Done(Writes(DoPublish(s, work, true), 14), work, At(s, work).signed.content, Current(s).record)
  {
    ReachableInv(s);
    assert WorkOk(s, work);
    PublishKeepsInv(s, work, true);
    TrackEnds(DoPublish(s, work, true), 14);
  }

  // ---------- a torn receipt ----------

  lemma FollowsThen(s: State, steps: seq<Step>, t: State, step: Step)
    requires Follows(s, steps, t) && Enabled(t, step)
    ensures Follows(s, steps + [step], Next(t, step))
    decreases |steps|
  {
    if steps == [] {
      assert [step][1..] == [];
    } else {
      assert (steps + [step])[1..] == steps[1..] + [step];
      FollowsThen(Next(s, steps[0]), steps[1..], t, step);
    }
  }

  lemma ReachableThen(s: State, step: Step)
    requires Reachable(s) && Enabled(s, step)
    ensures Reachable(Next(s, step))
  {
    var identifier, legacy, steps :| Follows(Initial(identifier, legacy), steps, s);
    FollowsThen(Initial(identifier, legacy), steps, s, step);
  }

  lemma {:induction false} TrackReaches(s: State, n: nat)
    requires Reachable(s) && OnTrack(s) && s.lock.value.pc + n <= 13
    ensures var t := Writes(s, n);
            Reachable(t) && OnTrack(t) && t.claims == s.claims && t.lock.value.pc == s.lock.value.pc + n
              && t.lock.value.work == s.lock.value.work
    decreases n
  {
    if n > 0 {
      ReachableInv(s);
      TrackContinues(s);
      ReachableThen(s, Advance);
      TrackReaches(Next(s, Advance), n - 1);
    }
  }

  /** One build, prepared and signed. */
  function Ready1(): State {
    var a := Next(Initial("app", NoInstaller), Preflight("w"));
    var b := Next(a, Prepare("w", App("app", "1", "1.0"), "r", 4));
    Next(b, Sign("w", "sha", 1, 4))
  }

  lemma ReadyIsPublishable()
    ensures Reachable(Ready1()) && Publishable(Ready1(), "w", true) && OnTrack(DoPublish(Ready1(), "w", true))
    ensures Ready1().claims == map[]
  {
    var s := Initial("app", NoInstaller);
    assert Follows(s, [], s);
    ReachableThen(s, Preflight("w"));
    var a := Next(s, Preflight("w"));
    assert a == With(s, "w", NO_WORK.(preflight := Holds(None)));
    ReachableThen(a, Prepare("w", App("app", "1", "1.0"), "r", 4));
    NextOfOne();
    var b := Next(a, Prepare("w", App("app", "1", "1.0"), "r", 4));
    var build := BuildOf(App("app", "1", "1.0"), None, 2, "r");
    assert b == With(a, "w",
             NO_WORK.(preflight := Holds(None), archive := Holds(build.archive), build := Holds(build)));
    ReachableThen(b, Sign("w", "sha", 1, 4));
    var artifact := Artifact("app", build.version, "1.0", "sha", 1);
    assert At(Ready1(), "w").signed == Holds(Signed(build, artifact)) && At(Ready1(), "w").ipa == Holds(artifact);
  }

  lemma NextOfOne()
    ensures NextBuild(App("app", "1", "1.0"), None) == Some(2) && Version(Decimal(2)) == Some(2)
  {
    assert Value("1"[..0]) == 0;
    assert Version("1") == Some(1);
    VersionOfDecimal(2);
  }

  /** A crash in the last write leaves a receipt that cannot be read and that nobody completes. */
  lemma TornReceiptIsReachable()
    ensures exists s: State :: Reachable(s) && s.pointer.Holds? && s.pointer.content.release == Some("w")
                               && Spoilt(s, "w") && Reconciled(s, "w") == Refused
  {
    ReadyIsPublishable();
    var s := DoPublish(Ready1(), "w", true);
    ReachableThen(Ready1(), Publish("w", true));
    TrackReaches(s, 13);
    TornAfterCrash(Writes(s, 13));
  }

  lemma TornAfterCrash(t: State)
    requires Reachable(t) && OnTrack(t) && t.lock.value.pc == 13 && t.claims == map[] && t.lock.value.work == "w"
    ensures var s := Next(t, Crash);
            Reachable(s) && s.pointer.Holds? && s.pointer.content.release == Some("w") && Spoilt(s, "w")
  {
    ReachableInv(t);
    ReachableThen(t, Crash);
  }

  // ---------- the commands ----------

  class Installer {
    const identifier: string
    const legacy: Legacy
    var pointer: File<Record>
    var releases: map<string, Release>
    var works: map<string, Work>
    var lock: Option<Process>
    var claims: map<nat, Claim>
    var serial: nat
    ghost var log: seq<Move>

    ghost function View(): State
      reads this
    {
      State(identifier, legacy, pointer, releases, works, lock, claims, serial, log)
    }

    constructor (identifier: string, legacy: Legacy)
      ensures View() == Initial(identifier, legacy)
    {
      this.identifier, this.legacy := identifier, legacy;
      pointer, releases, works, lock, claims, serial, log := Missing, map[], map[], None, map[], 0, [];
    }

    function Files(work: string): Work
      reads this
    {
      if work in works then works[work] else NO_WORK
    }

    /** `current`: reads the pointer and verifies what it names. */
    method ReadCurrent() returns (selection: Selection)
      ensures selection == Current(View())
    {
      if pointer.Holds? {
        var r := pointer.content;
        if r.release.None? || r.release.value !in releases {
          return Unreadable;
        }
        var release := releases[r.release.value];
        if release.record != Holds(r) || release.ipa != Holds(r.artifact) || Version(r.artifact.version).None? {
          return Unreadable;
        }
        return Selected(Some(r));
      }
      if pointer.Torn? || legacy.PartialInstaller? {
        return Unreadable;
      }
      if legacy.NoInstaller? {
        return Selected(None);
      }
      if Version(legacy.artifact.version).None? {
        return Unreadable;
      }
      return Selected(Some(Record(None, legacy.artifact, "")));
    }

    /** The version choice of `prepare`. */
    method ChooseBuild(source: App, previous: Option<Artifact>) returns (next: Option<nat>)
      ensures next == NextBuild(source, previous)
    {
      var own := Version(source.version);
      if own.None? {
        return None;
      }
      var before := 0;
      if previous.Some? {
        var version := Version(previous.value.version);
        if version.None? {
          return None;
        }
        before := version.value;
      }
      return InRange((if own.value < before then before else own.value) + 1);
    }

    /** The checks of `publish` under the lock. */
    method BeginPublish(work: string, ready: bool) returns (ok: bool)
      modifies this
      ensures ok == Publishable(old(View()), work, ready)
      ensures View() == Next(old(View()), Publish(work, ready))
    {
      var selection := ReadCurrent();
      var w := Files(work);
      if !ready || lock.Some? || !w.signed.Holds? || w.ipa != Holds(w.signed.content.artifact)
        || Version(w.signed.content.artifact.version).None? {
        return false;
      }
      if selection.Unreadable? || ArtifactOf(selection.record) != w.signed.content.build.baseline {
        return false;
      }
      if selection.record.Some? && selection.record.value.release.None? {
        return false;
      }
      lock := Some(Publishing(work, 0, selection.record, w.signed.content, None));
      return true;
    }

    method BeginRollback(work: string) returns (ok: bool)
      modifies this
      ensures ok == Restorable(old(View()), work)
      ensures View() == Next(old(View()), Rollback(work))
    {
      var selection := ReadCurrent();
      var w := Files(work);
      if lock.Some? || !w.publication.Holds? || !w.rollback.Holds? || w.rollback.content.None? {
        return false;
      }
      if selection.Unreadable? || selection.record.None?
        || selection.record.value.release != w.publication.content.record.release {
        return false;
      }
      var target := w.rollback.content.value;
      if target.release.None? || target.release.value !in releases
        || releases[target.release.value].ipa != Holds(target.artifact)
         || Version(target.artifact.version).None? {
        return false;
      }
      lock := Some(Restoring(work, 0, target));
      return true;
    }

    /** One write of the command that holds the lock. */
    method WriteNext()
      requires Enabled(View(), Advance)
      modifies this
      ensures View() == Next(old(View()), Advance)
    {
      match lock.value {
        case Restoring(work, pc, target) => RestoreNext(work, pc, target);
        case Publishing(work, pc, previous, signed, record) =>
          if pc < 3 {
            PrepareRelease(work, pc, previous, signed, record);
          } else if pc < 11 {
            FillRelease(work, pc, previous, signed, record);
          } else {
            FinishPublish(work, pc, previous, signed, record);
          }
      }
    }

    method PrepareRelease(work: string, pc: nat, previous: Option<Record>, signed: Signed, record: Option<Record>)
      requires pc < 3
      modifies this
      ensures View() == Publish1(old(View()), Publishing(work, pc, previous, signed, record))
    {
      var w := Files(work);
      if (pc == 0 && !w.rollback.Missing?) || (pc == 2 && work in releases) {
        lock := None;
        return;
      }
      lock := Some(Publishing(work, pc + 1, previous, signed, record));
      if pc == 2 {
        releases := releases[work := NO_RELEASE];
      } else {
        works := works[work := w.(rollback := if pc == 0 then Torn else Holds(previous))];
      }
    }

    /** `make_release` after it created the directory. */
    method FillRelease(work: string, pc: nat, previous: Option<Record>, signed: Signed, record: Option<Record>)
      requires 3 <= pc < 11 && work in releases && (pc >= 5 ==> record.Some? && record.value.release == Some(work))
      modifies this
      ensures View() == Release1(old(View()), Publishing(work, pc, previous, signed, record))
    {
      var release := releases[work];
      var made := record;
      if pc == 3 {
        release := release.(ipa := Torn);
      } else if pc == 4 {
        var ipa := Files(work).ipa;
        releases := releases[work := release.(ipa := ipa)];
        if !ipa.Holds? || ipa.content.identifier != identifier || Version(ipa.content.version).None? {
          lock := None;
          return;
        }
        release := release.(ipa := ipa);
        made := Some(Record(Some(work), ipa.content, signed.build.revision));
      } else if pc == 5 {
        release := release.(manifest := Torn);
      } else if pc == 6 {
        release := release.(manifest := Holds(ManifestOf(record.value)));
      } else if pc == 7 {
        release := release.(page := Torn);
      } else if pc == 8 {
        release := release.(page := Holds(record.value));
      } else {
        release := release.(record := if pc == 9 then Torn else Holds(record.value));
      }
      releases := releases[work := release];
      lock := Some(Publishing(work, pc + 1, previous, signed, made));
    }

    method FinishPublish(work: string, pc: nat, previous: Option<Record>, signed: Signed, record: Option<Record>)
      requires 11 <= pc && work in releases && record.Some? && record.value.release == Some(work)
      modifies this
      ensures View() == Release1(old(View()), Publishing(work, pc, previous, signed, record))
    {
      var w := Files(work);
      if pc == 11 {
        pointer := Holds(record.value);
        log := log + [Published(work, previous, record.value)];
        lock := Some(Publishing(work, 12, previous, signed, record));
      } else if pc == 12 && w.publication.Missing? {
        works := works[work := w.(publication := Torn)];
        lock := Some(Publishing(work, 13, previous, signed, record));
      } else {
        if pc > 12 {
          works := works[work := w.(publication := Holds(Receipt(record.value, previous)))];
        }
        lock := None;
      }
    }

    method RestoreNext(work: string, pc: nat, target: Record)
      requires pc == 0 ==> pointer.Holds?
      modifies this
      ensures View() == Restore1(old(View()), Restoring(work, pc, target))
    {
      var w := Files(work);
      if pc == 0 {
        log := log + [RolledBack(work, pointer.content, target)];
        pointer := Holds(target);
        lock := Some(Restoring(work, 1, target));
      } else if pc == 1 && w.rolledBack.Missing? {
        works := works[work := w.(rolledBack := Torn)];
        lock := Some(Restoring(work, 2, target));
      } else {
        if pc > 1 {
          works := works[work := w.(rolledBack := Holds(target))];
        }
        lock := None;
      }
    }

    /** What `reconcile` reads; it refuses, finds the receipt in place, or goes on to write it. */
    method BeginReconcile(work: string) returns (receipt: Option<Receipt>, claim: Option<nat>)
      modifies this
      ensures View() == Next(old(View()), Reconcile(work))
      ensures receipt.Some? <==>
              && Reconcilable(old(View()), work)
              && (old(Files(work)).publication.Missing?
                  || old(Files(work)).publication == Holds(ReceiptOf(old(View()), work)))
      ensures claim.Some? <==> Reconcilable(old(View()), work) && old(Files(work)).publication.Missing?
      ensures receipt.Some? ==> receipt.value == ReceiptOf(old(View()), work)
      ensures claim.Some? ==> claims == old(claims)[claim.value := Claim(work, receipt.value, false)]
    {
      var selection := ReadCurrent();
      var w := Files(work);
      if !w.signed.Holds? || selection.Unreadable? || selection.record.None? || !w.rollback.Holds? {
        return None, None;
      }
      var selected := selection.record.value;
      if selected.release != Some(work) || selected.artifact != w.signed.content.artifact
        || selected.revision != w.signed.content.build.revision {
        return None, None;
      }
      var result := Receipt(selected, w.rollback.content);
      if !w.publication.Missing? {
        return (if w.publication == Holds(result) then Some(result) else None), None;
      }
      claims := claims[serial := Claim(work, result, false)];
      serial := serial + 1;
      return Some(result), Some(serial - 1);
    }

    /** One write of a `reconcile`. */
    method WriteClaim(k: nat)
      requires k in claims
      modifies this
      ensures View() == Next(old(View()), WriteReceipt(k))
    {
      var c := claims[k];
      var w := Files(c.work);
      if c.created {
        works := works[c.work := w.(publication := Holds(c.receipt))];
        claims := claims - {k};
      } else if w.publication.Missing? {
        works := works[c.work := w.(publication := Torn)];
        claims := claims[k := c.(created := true)];
      } else {
        claims := claims - {k};
      }
    }
  }
}
