/**
 * The snapshot codec (snapshot.py): a snapshot is stored as JSON under an id that is the hash of its content. The
 * hash is a parameter; where it matters, two payloads with one hash are the same payload.
 */
module SnapshotCodec {
  import opened Basics
  import opened JsonValues
  import Texts
  import D = UnifiedDiff

  datatype Weight = Weight(pattern: string, weight: int)

  datatype Config = Config(
    mode: string, threshold: int, criticalPaths: seq<Weight>, per100: int, maxLines: int, patterns: seq<Weight>,
    testsRemoved: int, agentHint: int, externalContributor: int, zeroCoverage: int, maxHunks: int,
    contributorLabel: string, ossLabel: string)

  datatype Risk = Risk(score: int, triggered: bool, reasons: seq<string>, topHunks: seq<D.Hunk>)

  datatype SymbolUse = SymbolUse(symbol: string, definedIn: string, usedIn: seq<string>)

  datatype Callee = Callee(symbol: string, definedIn: string, line: int, constants: seq<string>, excerpt: seq<string>)

  datatype Structure = Structure(
    changedFiles: seq<string>, importers: map<string, seq<string>>, symbols: seq<SymbolUse>, siblingFiles: seq<string>,
    callees: seq<Callee>)

  datatype Content = Content(
    repo: string, repoId: int, pr: int, headSha: string, baseSha: string, authorId: int, authorLogin: string,
    title: string, body: string, risk: Risk, config: Config, diff: D.DiffResult, structure: Structure,
    zones: seq<string>, policyVersion: string)

  /** A snapshot is its content and the id that was given to it. */
  datatype Snapshot = Snapshot(content: Content, id: string)

  // ----- weights and configuration -----

  function EncodeWeight(w: Weight): Json {
    Arr([Str(w.pattern), Int(w.weight)])
  }

  function DecodeWeight(j: Json): Parse<Weight> {
    var pair :- AsItems(j);
    if |pair| != 2 then Bad
    else
      var pattern :- AsText(pair[0]);
      var weight :- AsNat(pair[1]);
      Got(Weight(pattern, weight))
  }

  predicate CodableWeight(w: Weight) {
    w.pattern != "" && w.weight >= 0
  }

  function EncodeWeights(ws: seq<Weight>): Json {
    EncodeSeq(ws, EncodeWeight)
  }

  function DecodeWeights(j: Json): Parse<seq<Weight>> {
    DecodeSeq(j, DecodeWeight)
  }

  lemma WeightsFaithful(ws: seq<Weight>)
    ensures Faithful(ws, DecodeWeights(EncodeWeights(ws)), All(ws, CodableWeight))
  {
    SeqFaithful(ws, EncodeWeight, DecodeWeight, CodableWeight);
  }

  function EncodeConfig(c: Config): Json {
    Obj(map[
      Mode := Str(c.mode), Threshold := Int(c.threshold), CriticalPaths := EncodeWeights(c.criticalPaths),
      LinesField := Obj(map[Per100 := Int(c.per100), MaxLines := Int(c.maxLines)]),
      Patterns := EncodeWeights(c.patterns), TestsRemoved := Int(c.testsRemoved), AgentHint := Int(c.agentHint),
      ExternalContributor := Int(c.externalContributor), ZeroCoverage := Int(c.zeroCoverage), MaxHunks := Int(c.maxHunks),
      ContributorLabel := Str(c.contributorLabel), OssLabel := Str(c.ossLabel)])
  }

  /** The points of a configuration that stand beside its lists. */
  datatype Points = Points(testsRemoved: int, agentHint: int, externalContributor: int, zeroCoverage: int, maxHunks: int)

  function PointsOf(c: Config): Points {
    Points(c.testsRemoved, c.agentHint, c.externalContributor, c.zeroCoverage, c.maxHunks)
  }

  function DecodePoints(data: map<Field, Json>): Parse<Points> {
    var testsRemoved :- AsNat(Get(data, TestsRemoved, Null));
    var agentHint :- AsNat(Get(data, AgentHint, Null));
    var externalContributor :- AsNat(Get(data, ExternalContributor, Null));
    var zeroCoverage :- AsNat(Get(data, ZeroCoverage, Null));
    var maxHunks :- AsNat(Get(data, MaxHunks, Null));
    Got(Points(testsRemoved, agentHint, externalContributor, zeroCoverage, maxHunks))
  }

  predicate CodablePoints(p: Points) {
    p.testsRemoved >= 0 && p.agentHint >= 0 && p.externalContributor >= 0 && p.zeroCoverage >= 0 && p.maxHunks >= 0
  }

  function DecodeConfig(j: Json): Parse<Config> {
    var data :- AsFields(j);
    var lines :- AsFields(Get(data, LinesField, Null));
    var mode :- AsText(Get(data, Mode, Null));
    var threshold :- AsNat(Get(data, Threshold, Null));
    var criticalPaths :- DecodeWeights(Get(data, CriticalPaths, Null));
    var per100 :- AsNat(Get(lines, Per100, Null));
    var maxLines :- AsNat(Get(lines, MaxLines, Null));
    var patterns :- DecodeWeights(Get(data, Patterns, Null));
    var points :- DecodePoints(data);
    var contributorLabel :- AsText(Get(data, ContributorLabel, Null));
    var ossLabel :- AsText(Get(data, OssLabel, Null));
    Got(Config(mode, threshold, criticalPaths, per100, maxLines, patterns, points.testsRemoved, points.agentHint,
               points.externalContributor, points.zeroCoverage, points.maxHunks, contributorLabel, ossLabel))
  }

  predicate CodableConfig(c: Config) {
    && c.mode != "" && c.contributorLabel != "" && c.ossLabel != ""
    && c.threshold >= 0 && c.per100 >= 0 && c.maxLines >= 0 && CodablePoints(PointsOf(c))
    && All(c.criticalPaths, CodableWeight) && All(c.patterns, CodableWeight)
  }

  ghost predicate HoldsConfigParts(data: map<Field, Json>, c: Config) {
    && Get(data, LinesField, Null) == Obj(map[Per100 := Int(c.per100), MaxLines := Int(c.maxLines)])
    && Get(data, CriticalPaths, Null) == EncodeWeights(c.criticalPaths) && Get(data, Patterns, Null) == EncodeWeights(c.patterns)
    && Get(data, Mode, Null) == Str(c.mode) && Get(data, ContributorLabel, Null) == Str(c.contributorLabel)
    && Get(data, OssLabel, Null) == Str(c.ossLabel)
  }

  ghost predicate HoldsConfigNumbers(data: map<Field, Json>, c: Config) {
    && Get(data, Threshold, Null) == Int(c.threshold) && Get(data, TestsRemoved, Null) == Int(c.testsRemoved)
    && Get(data, AgentHint, Null) == Int(c.agentHint) && Get(data, ExternalContributor, Null) == Int(c.externalContributor)
    && Get(data, ZeroCoverage, Null) == Int(c.zeroCoverage) && Get(data, MaxHunks, Null) == Int(c.maxHunks)
  }

  lemma ConfigHoldsParts(c: Config)
    ensures HoldsConfigParts(EncodeConfig(c).fields, c)
  {
  }

  lemma ConfigHoldsNumbers(c: Config)
    ensures HoldsConfigNumbers(EncodeConfig(c).fields, c)
  {
  }

  lemma PointsRead(c: Config, data: map<Field, Json>)
    requires HoldsConfigNumbers(data, c)
    ensures Faithful(PointsOf(c), DecodePoints(data), CodablePoints(PointsOf(c)))
  {
  }

  lemma LinesRead(c: Config)
    ensures var lines := map[Per100 := Int(c.per100), MaxLines := Int(c.maxLines)];
            && Faithful(c.per100, AsNat(Get(lines, Per100, Null)), c.per100 >= 0)
            && Faithful(c.maxLines, AsNat(Get(lines, MaxLines, Null)), c.maxLines >= 0)
  {
  }

  lemma ConfigReads(c: Config, data: map<Field, Json>)
    requires HoldsConfigParts(data, c) && Get(data, Threshold, Null) == Int(c.threshold)
    requires Faithful(c.criticalPaths, DecodeWeights(EncodeWeights(c.criticalPaths)), All(c.criticalPaths, CodableWeight))
    requires Faithful(c.patterns, DecodeWeights(EncodeWeights(c.patterns)), All(c.patterns, CodableWeight))
    requires Faithful(PointsOf(c), DecodePoints(data), CodablePoints(PointsOf(c)))
    ensures Faithful(c, DecodeConfig(Obj(data)), CodableConfig(c))
  {
    LinesRead(c);
  }

  lemma ConfigFaithful(c: Config)
    ensures Faithful(c, DecodeConfig(EncodeConfig(c)), CodableConfig(c))
  {
    ConfigHoldsParts(c);
    ConfigHoldsNumbers(c);
    WeightsFaithful(c.criticalPaths);
    WeightsFaithful(c.patterns);
    PointsRead(c, EncodeConfig(c).fields);
    ConfigReads(c, EncodeConfig(c).fields);
  }

  // ----- diff and risk -----

  function StatusName(s: D.Status): string {
    match s
    case Added => "added"
    case Deleted => "deleted"
    case Modified => "modified"
    case Renamed => "renamed"
  }

  function AsStatus(j: Json): Parse<D.Status> {
    if !j.Str? then Bad
    else if j.s == "added" then Got(D.Added)
    else if j.s == "deleted" then Got(D.Deleted)
    else if j.s == "modified" then Got(D.Modified)
    else if j.s == "renamed" then Got(D.Renamed)
    else Bad
  }

  lemma StatusFaithful(s: D.Status)
    ensures AsStatus(Str(StatusName(s))) == Got(s)
    ensures forall j :: AsStatus(j) == Got(s) ==> j == Str(StatusName(s))
  {
  }

  function EncodeHunk(h: D.Hunk): Json {
    Obj(map[
      File := Str(h.file), NewStart := Int(h.newStart), OldStart := Int(h.oldStart), Anchor := Str(h.anchor),
      AddedLines := Strings(h.added), RemovedLines := Strings(h.removed), BodyText := Str(h.body),
      FileStatus := Str(StatusName(h.status))])
  }

  function DecodeHunk(j: Json): Parse<D.Hunk> {
    var data :- AsFields(j);
    var file :- AsText(Get(data, File, Null));
    var newStart :- AsNat(Get(data, NewStart, Null));
    var oldStart :- AsNat(Get(data, OldStart, Null));
    var anchor :- AsText(Get(data, Anchor, Null));
    var added :- AsStrings(Get(data, AddedLines, Null));
    var removed :- AsStrings(Get(data, RemovedLines, Null));
    var body :- AsStr(Get(data, BodyText, Null));
    var status :- AsStatus(Get(data, FileStatus, Null));
    Got(D.Hunk(file, newStart, oldStart, anchor, added, removed, body, status))
  }

  predicate CodableHunk(h: D.Hunk) {
    h.file != "" && h.anchor != ""
  }

  lemma HunkFaithful(h: D.Hunk)
    ensures Faithful(h, DecodeHunk(EncodeHunk(h)), CodableHunk(h))
  {
    StringsFaithful(h.added);
    StringsFaithful(h.removed);
    StatusFaithful(h.status);
  }

  function EncodeFile(f: D.FileChange): Json {
    Obj(map[
      File := Str(f.file), StatusField := Str(StatusName(f.status)), Binary := Bool(f.binary), Additions := Int(f.additions),
      Deletions := Int(f.deletions), HunkCount := Int(f.hunkCount),
      PreviousFile := if f.previous.None? then Null else Str(f.previous.value)])
  }

  function DecodePrevious(j: Json): Parse<Option<string>> {
    if j.Null? then Got(None)
    else
      var text :- AsText(j);
      Got(Some(text))
  }

  function DecodeFile(j: Json): Parse<D.FileChange> {
    var data :- AsFields(j);
    var file :- AsText(Get(data, File, Null));
    var status :- AsStatus(Get(data, StatusField, Null));
    var binary :- AsBool(Get(data, Binary, Null));
    var additions :- AsNat(Get(data, Additions, Null));
    var deletions :- AsNat(Get(data, Deletions, Null));
    var hunkCount :- AsNat(Get(data, HunkCount, Null));
    var previous :- DecodePrevious(Get(data, PreviousFile, Null));
    Got(D.FileChange(file, status, binary, additions, deletions, hunkCount, previous))
  }

  predicate CodableFile(f: D.FileChange) {
    f.file != "" && f.previous != Some("")
  }

  lemma FileFaithful(f: D.FileChange)
    ensures Faithful(f, DecodeFile(EncodeFile(f)), CodableFile(f))
  {
    StatusFaithful(f.status);
  }

  function EncodeHunks(hs: seq<D.Hunk>): Json {
    EncodeSeq(hs, EncodeHunk)
  }

  function DecodeHunks(j: Json): Parse<seq<D.Hunk>> {
    DecodeSeq(j, DecodeHunk)
  }

  lemma HunksFaithful(hs: seq<D.Hunk>)
    ensures Faithful(hs, DecodeHunks(EncodeHunks(hs)), All(hs, CodableHunk))
  {
    forall k | 0 <= k < |hs| ensures Faithful(hs[k], DecodeHunk(EncodeHunk(hs[k])), CodableHunk(hs[k])) {
      HunkFaithful(hs[k]);
    }
    SeqFaithful(hs, EncodeHunk, DecodeHunk, CodableHunk);
  }

  function EncodeDiff(d: D.DiffResult): Json {
    Obj(map[Hunks := EncodeHunks(d.hunks), Files := EncodeSeq(d.files, EncodeFile)])
  }

  function DecodeDiff(j: Json): Parse<D.DiffResult> {
    var data :- AsFields(j);
    var hunks :- DecodeHunks(Get(data, Hunks, Null));
    var files :- DecodeSeq(Get(data, Files, Null), DecodeFile);
    Got(D.DiffResult(hunks, files))
  }

  predicate CodableDiff(d: D.DiffResult) {
    All(d.hunks, CodableHunk) && All(d.files, CodableFile)
  }

  lemma DiffFaithful(d: D.DiffResult)
    ensures Faithful(d, DecodeDiff(EncodeDiff(d)), CodableDiff(d))
  {
    HunksFaithful(d.hunks);
    forall k | 0 <= k < |d.files| ensures Faithful(d.files[k], DecodeFile(EncodeFile(d.files[k])), CodableFile(d.files[k])) {
      FileFaithful(d.files[k]);
    }
    SeqFaithful(d.files, EncodeFile, DecodeFile, CodableFile);
  }

  function EncodeRisk(r: Risk): Json {
    Obj(map[Score := Int(r.score), Triggered := Bool(r.triggered), Reasons := Strings(r.reasons), TopHunks := EncodeHunks(r.topHunks)])
  }

  function DecodeRisk(j: Json): Parse<Risk> {
    var data :- AsFields(j);
    var score :- AsNat(Get(data, Score, Null));
    var triggered :- AsBool(Get(data, Triggered, Null));
    var reasons :- AsStrings(Get(data, Reasons, Null));
    var topHunks :- DecodeHunks(Get(data, TopHunks, Null));
    Got(Risk(score, triggered, reasons, topHunks))
  }

  predicate CodableRisk(r: Risk) {
    r.score >= 0 && All(r.topHunks, CodableHunk)
  }

  lemma RiskFaithful(r: Risk)
    ensures Faithful(r, DecodeRisk(EncodeRisk(r)), CodableRisk(r))
  {
    StringsFaithful(r.reasons);
    HunksFaithful(r.topHunks);
  }

  // ----- structure -----

  function EncodeSymbol(s: SymbolUse): Json {
    Obj(map[Symbol := Str(s.symbol), DefinedIn := Str(s.definedIn), UsedIn := Strings(s.usedIn)])
  }

  function DecodeSymbol(j: Json): Parse<SymbolUse> {
    var data :- AsFields(j);
    var symbol :- AsText(Get(data, Symbol, Null));
    var definedIn :- AsText(Get(data, DefinedIn, Null));
    var usedIn :- AsStrings(Get(data, UsedIn, Null));
    Got(SymbolUse(symbol, definedIn, usedIn))
  }

  predicate CodableSymbol(s: SymbolUse) {
    s.symbol != "" && s.definedIn != ""
  }

  lemma SymbolFaithful(s: SymbolUse)
    ensures Faithful(s, DecodeSymbol(EncodeSymbol(s)), CodableSymbol(s))
  {
    StringsFaithful(s.usedIn);
  }

  /** A callee as it was written before it had an excerpt. */
  function EncodeOldCallee(c: Callee): Json {
    Obj(map[Symbol := Str(c.symbol), DefinedIn := Str(c.definedIn), Line := Int(c.line), Constants := Strings(c.constants)])
  }

  function EncodeCallee(c: Callee): Json {
    var payload := EncodeOldCallee(c);
    if c.excerpt != [] then Obj(payload.fields[Excerpt := Strings(c.excerpt)]) else payload
  }

  function DecodeCallee(j: Json): Parse<Callee> {
    var data :- AsFields(j);
    var symbol :- AsText(Get(data, Symbol, Null));
    var definedIn :- AsText(Get(data, DefinedIn, Null));
    var line :- AsPositive(Get(data, Line, Null));
    var constants :- AsStrings(Get(data, Constants, Arr([])));
    var excerpt :- AsStrings(Get(data, Excerpt, Arr([])));
    Got(Callee(symbol, definedIn, line, constants, excerpt))
  }

  predicate CodableCallee(c: Callee) {
    c.symbol != "" && c.definedIn != "" && c.line > 0
  }

  lemma CalleeFaithful(c: Callee)
    ensures Faithful(c, DecodeCallee(EncodeCallee(c)), CodableCallee(c))
  {
    StringsFaithful(c.constants);
    StringsFaithful(c.excerpt);
    assert AsStrings(Arr([])) == Got([]);
  }

  /** A structure as it was written before it had callees. */
  function EncodeOldStructure(s: Structure): Json {
    Obj(map[
      ChangedFiles := Strings(s.changedFiles), Importers := EncodeDict(s.importers),
      Symbols := EncodeSeq(s.symbols, EncodeSymbol), SiblingFiles := Strings(s.siblingFiles)])
  }

  function EncodeStructure(s: Structure): Json {
    var payload := EncodeOldStructure(s);
    if s.callees != [] then Obj(payload.fields[Callees := EncodeSeq(s.callees, EncodeCallee)]) else payload
  }

  /** Python's truth value. */
  predicate Truthy(j: Json) {
    match j
    case Null => false
    case Bool(b) => b
    case Int(n) => n != 0
    case Str(s) => s != ""
    case Arr(items) => items != []
    case Obj(fields) => fields != map[]
    case Dict(entries) => entries != map[]
  }

  function DecodeCallees(j: Json): Parse<seq<Callee>> {
    if Truthy(j) then DecodeSeq(j, DecodeCallee) else Got([])
  }

  function DecodeStructure(j: Json): Parse<Structure> {
    var data :- AsFields(j);
    var importers :- DecodeDict(Get(data, Importers, Null));
    var symbols :- DecodeSeq(Get(data, Symbols, Null), DecodeSymbol);
    var callees :- DecodeCallees(Get(data, Callees, Arr([])));
    var changedFiles :- AsStrings(Get(data, ChangedFiles, Null));
    var siblingFiles :- AsStrings(Get(data, SiblingFiles, Null));
    Got(Structure(changedFiles, importers, symbols, siblingFiles, callees))
  }

  predicate CodableStructure(s: Structure) {
    "" !in s.importers && All(s.symbols, CodableSymbol) && All(s.callees, CodableCallee)
  }

  /** Whatever counts as false in Python stands for no callees; any other value that is no list is refused. */
  lemma FalsyMeansNone(j: Json)
    ensures j.Null? || j == Bool(false) || j == Int(0) || j == Str("") || j == Arr([]) || j == Obj(map[]) || j == Dict(map[]) ==>
              DecodeCallees(j) == Got([])
    ensures j == Bool(true) || (j.Int? && j.n != 0) || (j.Str? && j.s != "") || (j.Dict? && j.entries != map[]) ==> DecodeCallees(j).Bad?
  {
  }

  lemma CalleesFaithful(cs: seq<Callee>)
    ensures Faithful(cs, DecodeCallees(EncodeSeq(cs, EncodeCallee)), All(cs, CodableCallee))
  {
    forall k | 0 <= k < |cs| ensures Faithful(cs[k], DecodeCallee(EncodeCallee(cs[k])), CodableCallee(cs[k])) {
      CalleeFaithful(cs[k]);
    }
    SeqFaithful(cs, EncodeCallee, DecodeCallee, CodableCallee);
    assert cs != [] ==> EncodeAll(cs, EncodeCallee) != [];
  }

  lemma StructureFaithful(s: Structure)
    ensures Faithful(s, DecodeStructure(EncodeStructure(s)), CodableStructure(s))
  {
    StringsFaithful(s.changedFiles);
    StringsFaithful(s.siblingFiles);
    DictFaithful(s.importers);
    forall k | 0 <= k < |s.symbols| ensures Faithful(s.symbols[k], DecodeSymbol(EncodeSymbol(s.symbols[k])), CodableSymbol(s.symbols[k])) {
      SymbolFaithful(s.symbols[k]);
    }
    SeqFaithful(s.symbols, EncodeSymbol, DecodeSymbol, CodableSymbol);
    CalleesFaithful(s.callees);
    StructureReads(s, EncodeStructure(s).fields);
  }

  lemma StructureReads(s: Structure, data: map<Field, Json>)
    requires data == EncodeStructure(s).fields
    requires Faithful(s.changedFiles, AsStrings(Strings(s.changedFiles)), true)
    requires Faithful(s.siblingFiles, AsStrings(Strings(s.siblingFiles)), true)
    requires Faithful(s.importers, DecodeDict(EncodeDict(s.importers)), "" !in s.importers)
    requires Faithful(s.symbols, DecodeSeq(EncodeSeq(s.symbols, EncodeSymbol), DecodeSymbol), All(s.symbols, CodableSymbol))
    requires Faithful(s.callees, DecodeCallees(EncodeSeq(s.callees, EncodeCallee)), All(s.callees, CodableCallee))
    ensures Faithful(s, DecodeStructure(Obj(data)), CodableStructure(s))
  {
    assert DecodeCallees(Arr([])) == Got([]);
  }

  // ----- the snapshot -----

  /** The payload that is hashed, with the given structure payload. */
  function PayloadWith(c: Content, structure: Json): map<Field, Json> {
    map[
      Repo := Str(c.repo), RepoId := Int(c.repoId), Pr := Int(c.pr), HeadSha := Str(c.headSha), BaseSha := Str(c.baseSha),
      AuthorId := Int(c.authorId), AuthorLogin := Str(c.authorLogin), Title := Str(c.title), BodyText := Str(c.body),
      RiskField := EncodeRisk(c.risk), ConfigField := EncodeConfig(c.config), DiffField := EncodeDiff(c.diff),
      StructureField := structure, Zones := Strings(c.zones), PolicyVersion := Str(c.policyVersion)]
  }

  function Payload(c: Content): map<Field, Json> {
    PayloadWith(c, EncodeStructure(c.structure))
  }

  function Create(c: Content, hash: Json -> string): Snapshot {
    Snapshot(c, hash(Obj(Payload(c))))
  }

  /** `to_dict`. */
  function Encode(s: Snapshot): Json {
    Obj(Payload(s.content)[SnapshotIdField := Str(s.id)])
  }

  datatype Facts = Facts(
    repo: string, repoId: int, pr: int, headSha: string, baseSha: string, authorId: int, authorLogin: string, title: string,
    body: string)

  function DecodeFacts(data: map<Field, Json>): Parse<Facts> {
    var repo :- AsText(Get(data, Repo, Null));
    var repoId :- AsPositive(Get(data, RepoId, Null));
    var pr :- AsPositive(Get(data, Pr, Null));
    var headSha :- AsHex(Get(data, HeadSha, Null), 40);
    var baseSha :- AsHex(Get(data, BaseSha, Null), 40);
    var authorId :- AsPositive(Get(data, AuthorId, Null));
    var authorLogin :- AsText(Get(data, AuthorLogin, Null));
    var title :- AsText(Get(data, Title, Null));
    var body :- AsStr(Get(data, BodyText, Null));
    Got(Facts(repo, repoId, pr, headSha, baseSha, authorId, authorLogin, title, body))
  }

  function FactsOf(c: Content): Facts {
    Facts(c.repo, c.repoId, c.pr, c.headSha, c.baseSha, c.authorId, c.authorLogin, c.title, c.body)
  }

  predicate CodableFacts(f: Facts) {
    && f.repo != "" && f.repoId > 0 && f.pr > 0 && |f.headSha| == 40 && Hex(f.headSha) && |f.baseSha| == 40 && Hex(f.baseSha)
    && f.authorId > 0 && f.authorLogin != "" && f.title != ""
  }

  function DecodeContent(data: map<Field, Json>): Parse<Content> {
    var f :- DecodeFacts(data);
    var risk :- DecodeRisk(Get(data, RiskField, Null));
    var config :- DecodeConfig(Get(data, ConfigField, Null));
    var diff :- DecodeDiff(Get(data, DiffField, Null));
    var structure :- DecodeStructure(Get(data, StructureField, Null));
    var zones :- AsStrings(Get(data, Zones, Null));
    var policyVersion :- AsHex(Get(data, PolicyVersion, Null), 64);
    Got(Content(f.repo, f.repoId, f.pr, f.headSha, f.baseSha, f.authorId, f.authorLogin, f.title, f.body,
                risk, config, diff, structure, zones, policyVersion))
  }

  predicate CodableContent(c: Content) {
    && CodableFacts(FactsOf(c)) && CodableRisk(c.risk) && CodableConfig(c.config) && CodableDiff(c.diff)
    && CodableStructure(c.structure) && |c.policyVersion| == 64 && Hex(c.policyVersion)
  }

  /** `from_dict` with the checks of the constructor, the last of which compares the id with the content. */
  function Decode(j: Json, hash: Json -> string): Parse<Snapshot> {
    var data :- AsFields(j);
    var content :- DecodeContent(data);
    var id :- AsHex(Get(data, SnapshotIdField, Null), 64);
    if Texts.RepositoryName(content.repo) && id == hash(Obj(Payload(content))) then Got(Snapshot(content, id)) else Bad
  }

  ghost predicate HoldsNumbers(data: map<Field, Json>, f: Facts) {
    && Get(data, RepoId, Null) == Int(f.repoId) && Get(data, Pr, Null) == Int(f.pr) && Get(data, AuthorId, Null) == Int(f.authorId)
    && Get(data, HeadSha, Null) == Str(f.headSha) && Get(data, BaseSha, Null) == Str(f.baseSha)
  }

  ghost predicate HoldsTexts(data: map<Field, Json>, f: Facts) {
    && Get(data, Repo, Null) == Str(f.repo) && Get(data, AuthorLogin, Null) == Str(f.authorLogin)
    && Get(data, Title, Null) == Str(f.title) && Get(data, BodyText, Null) == Str(f.body)
  }

  lemma FactsFaithful(f: Facts, data: map<Field, Json>)
    requires HoldsNumbers(data, f) && HoldsTexts(data, f)
    ensures Faithful(f, DecodeFacts(data), CodableFacts(f))
  {
  }

  ghost predicate HoldsParts(data: map<Field, Json>, c: Content) {
    && Get(data, RiskField, Null) == EncodeRisk(c.risk) && Get(data, ConfigField, Null) == EncodeConfig(c.config)
    && Get(data, DiffField, Null) == EncodeDiff(c.diff) && Get(data, StructureField, Null) == EncodeStructure(c.structure)
    && Get(data, Zones, Null) == Strings(c.zones) && Get(data, PolicyVersion, Null) == Str(c.policyVersion)
  }

  lemma PayloadHoldsNumbers(c: Content, id: string)
    ensures HoldsNumbers(Payload(c)[SnapshotIdField := Str(id)], FactsOf(c))
  {
  }

  lemma PayloadHoldsTexts(c: Content, id: string)
    ensures HoldsTexts(Payload(c)[SnapshotIdField := Str(id)], FactsOf(c))
  {
  }

  lemma PayloadHoldsParts(c: Content, id: string)
    ensures HoldsParts(Payload(c)[SnapshotIdField := Str(id)], c)
  {
  }

  lemma ContentFaithful(c: Content, data: map<Field, Json>)
    requires HoldsNumbers(data, FactsOf(c)) && HoldsTexts(data, FactsOf(c)) && HoldsParts(data, c)
    ensures Faithful(c, DecodeContent(data), CodableContent(c))
  {
    FactsFaithful(FactsOf(c), data);
    RiskFaithful(c.risk);
    ConfigFaithful(c.config);
    DiffFaithful(c.diff);
    StructureFaithful(c.structure);
    StringsFaithful(c.zones);
  }

  lemma StoredFaithful(c: Content, id: string)
    ensures var data := Payload(c)[SnapshotIdField := Str(id)];
            Faithful(c, DecodeContent(data), CodableContent(c)) && Get(data, SnapshotIdField, Null) == Str(id)
  {
    PayloadHoldsNumbers(c, id);
    PayloadHoldsTexts(c, id);
    PayloadHoldsParts(c, id);
    ContentFaithful(c, Payload(c)[SnapshotIdField := Str(id)]);
  }

  ghost predicate HexHash(hash: Json -> string) {
    forall j :: |hash(j)| == 64 && Hex(hash(j))
  }

  ghost predicate NoCollision(hash: Json -> string, a: Json, b: Json) {
    hash(a) == hash(b) ==> a == b
  }

  /** A snapshot that was created comes back from its stored form exactly when all its parts can be stored. */
  lemma SnapshotRoundTripIff(c: Content, hash: Json -> string)
    requires HexHash(hash)
    ensures var s := Create(c, hash);
            Decode(Encode(s), hash) == Got(s) <==> CodableContent(c) && Texts.RepositoryName(c.repo)
    ensures Decode(Encode(Create(c, hash)), hash).Got? ==> Decode(Encode(Create(c, hash)), hash) == Got(Create(c, hash))
  {
    var s := Create(c, hash);
    var data := Payload(c)[SnapshotIdField := Str(s.id)];
    StoredFaithful(c, s.id);
  }

  /** Whatever payload is accepted, the snapshot's id is the hash of what it would be written as. */
  lemma AcceptedIdIsDigest(j: Json, hash: Json -> string)
    requires Decode(j, hash).Got?
    ensures Create(Decode(j, hash).value.content, hash) == Decode(j, hash).value
  {
  }

  /** A payload whose id is the hash of its own content, once accepted, is written back unchanged. */
  lemma StoredPayloadIsStable(j: Json, hash: Json -> string)
    requires Decode(j, hash).Got? && SnapshotIdField in j.fields
    requires NoCollision(hash, Obj(j.fields - {SnapshotIdField}), Obj(Payload(Decode(j, hash).value.content)))
    requires j.fields[SnapshotIdField] == Str(hash(Obj(j.fields - {SnapshotIdField})))
    ensures Encode(Decode(j, hash).value) == j
  {
    var s := Decode(j, hash).value;
    assert s.id == hash(Obj(j.fields - {SnapshotIdField})) == hash(Obj(Payload(s.content)));
    assert j.fields - {SnapshotIdField} == Payload(s.content);
    assert j.fields == (j.fields - {SnapshotIdField})[SnapshotIdField := Str(s.id)];
  }

  /** A snapshot stored before `callees` existed reads back without callees, under the same id. */
  lemma OldSnapshotsStayValid(c: Content, hash: Json -> string)
    requires HexHash(hash) && c.structure.callees == [] && CodableContent(c) && Texts.RepositoryName(c.repo)
    ensures var payload := PayloadWith(c, EncodeOldStructure(c.structure)); var id := hash(Obj(payload));
            Decode(Obj(payload[SnapshotIdField := Str(id)]), hash) == Got(Snapshot(c, id))
  {
    SnapshotRoundTripIff(c, hash);
  }

  function EncodeOldCallees(s: Structure): Json {
    Obj(EncodeOldStructure(s).fields[Callees := EncodeSeq(s.callees, EncodeOldCallee)])
  }

  /** A snapshot stored before callees had an `excerpt` reads back with empty excerpts, under the same id. */
  lemma OldCalleesStayValid(c: Content, hash: Json -> string)
    requires HexHash(hash) && CodableContent(c) && Texts.RepositoryName(c.repo)
    requires c.structure.callees != [] && forall k | 0 <= k < |c.structure.callees| :: c.structure.callees[k].excerpt == []
    ensures var payload := PayloadWith(c, EncodeOldCallees(c.structure)); var id := hash(Obj(payload));
            Decode(Obj(payload[SnapshotIdField := Str(id)]), hash) == Got(Snapshot(c, id))
  {
    SameCallees(c.structure.callees);
    SnapshotRoundTripIff(c, hash);
  }

  lemma {:induction false} SameCallees(cs: seq<Callee>)
    requires forall k | 0 <= k < |cs| :: cs[k].excerpt == []
    ensures EncodeAll(cs, EncodeCallee) == EncodeAll(cs, EncodeOldCallee)
  {
    if cs != [] {
      SameCallees(cs[..|cs| - 1]);
    }
  }
}
