/** JSON values as `json.loads` gives them, and the checks with which the snapshot codec reads them (snapshot.py). */
module JsonValues {

  /** A decoded value, or a SnapshotError. */
  datatype Parse<+T> = Got(value: T) | Bad {
    predicate IsFailure() { Bad? }

    function PropagateFailure<U>(): Parse<U>
      requires Bad?
    {
      Bad
    }

    function Extract(): T
      requires Got?
    {
      value
    }
  }

  /** The names of the record fields that the codec uses. */
  datatype Field =
    | Repo | RepoId | Pr | HeadSha | BaseSha | AuthorId | AuthorLogin | Title | BodyText | RiskField | ConfigField | DiffField
    | StructureField | Zones | PolicyVersion | SnapshotIdField
    | Score | Triggered | Reasons | TopHunks
    | Mode | Threshold | CriticalPaths | LinesField | Patterns | TestsRemoved | AgentHint | ExternalContributor | ZeroCoverage
    | MaxHunks | ContributorLabel | OssLabel | Per100 | MaxLines
    | Hunks | Files | File | NewStart | OldStart | Anchor | AddedLines | RemovedLines | FileStatus
    | StatusField | Binary | Additions | Deletions | HunkCount | PreviousFile
    | ChangedFiles | Importers | Symbols | SiblingFiles | Callees | Symbol | DefinedIn | UsedIn | Line | Constants | Excerpt

  /** An object is read by field names or as a dictionary; the two are kept apart. */
  datatype Json =
    | Null | Bool(b: bool) | Int(n: int) | Str(s: string) | Arr(items: seq<Json>)
    | Obj(fields: map<Field, Json>) | Dict(entries: map<string, Json>)

  /** `data.get(key, default)` of a mapping. */
  function Get(fields: map<Field, Json>, f: Field, missing: Json): Json {
    if f in fields then fields[f] else missing
  }

  function AsFields(j: Json): Parse<map<Field, Json>> {
    if j.Obj? then Got(j.fields) else Bad
  }

  function AsItems(j: Json): Parse<seq<Json>> {
    if j.Arr? then Got(j.items) else Bad
  }

  /** `_require_str`: None reads as the empty text. */
  function AsStr(j: Json): Parse<string> {
    if j.Null? then Got("") else if j.Str? then Got(j.s) else Bad
  }

  function AsText(j: Json): Parse<string> {
    if j.Str? && j.s != "" then Got(j.s) else Bad
  }

  function AsNat(j: Json): Parse<int> {
    if j.Int? && j.n >= 0 then Got(j.n) else Bad
  }

  function AsPositive(j: Json): Parse<int> {
    if j.Int? && j.n > 0 then Got(j.n) else Bad
  }

  function AsBool(j: Json): Parse<bool> {
    if j.Bool? then Got(j.b) else Bad
  }

  predicate Hex(s: string) {
    forall c | c in s :: '0' <= c <= '9' || 'a' <= c <= 'f'
  }

  lemma HexIff(s: string)
    ensures Hex(s) <==> forall c | c in s :: c in "0123456789abcdef"
  {
    assert forall c: char :: ('0' <= c <= '9' || 'a' <= c <= 'f') <==> c in "0123456789abcdef";
  }

  /** What the readers of single values take: null only for a text that may be empty, and no value of another kind. */
  lemma ReadersMean(j: Json)
    ensures AsStr(j) == if j == Null then Got("") else match j case Str(s) => Got(s) case _ => Bad
    ensures AsText(j).Got? <==> j.Str? && |j.s| > 0
    ensures AsNat(j).Got? <==> j.Int? && j.n > -1
    ensures AsPositive(j).Got? <==> j.Int? && j.n >= 1
  {
  }

  function AsHex(j: Json, length: nat): Parse<string> {
    if j.Str? && |j.s| == length && Hex(j.s) then Got(j.s) else Bad
  }

  // ----- sequences -----

  function EncodeAll<T>(xs: seq<T>, encode: T -> Json): seq<Json> {
    if xs == [] then [] else EncodeAll(xs[..|xs| - 1], encode) + [encode(xs[|xs| - 1])]
  }

  function DecodeAll<T>(items: seq<Json>, decode: Json -> Parse<T>): Parse<seq<T>> {
    if items == [] then Got([])
    else
      var front :- DecodeAll(items[..|items| - 1], decode);
      var last :- decode(items[|items| - 1]);
      Got(front + [last])
  }

  function EncodeSeq<T>(xs: seq<T>, encode: T -> Json): Json {
    Arr(EncodeAll(xs, encode))
  }

  function DecodeSeq<T>(j: Json, decode: Json -> Parse<T>): Parse<seq<T>> {
    if j.Arr? then DecodeAll(j.items, decode) else Bad
  }

  /** What is decoded is what was encoded, or nothing is. */
  ghost predicate Faithful<T>(x: T, read: Parse<T>, codable: bool) {
    read == if codable then Got(x) else Bad
  }

  predicate All<T>(xs: seq<T>, codable: T -> bool) {
    forall k | 0 <= k < |xs| :: codable(xs[k])
  }

  lemma {:induction false} AllFaithful<T>(xs: seq<T>, encode: T -> Json, decode: Json -> Parse<T>, codable: T -> bool)
    requires forall k | 0 <= k < |xs| :: Faithful(xs[k], decode(encode(xs[k])), codable(xs[k]))
    ensures Faithful(xs, DecodeAll(EncodeAll(xs, encode), decode), All(xs, codable))
  {
    if xs != [] {
      var front, last := xs[..|xs| - 1], xs[|xs| - 1];
      AllFaithful(front, encode, decode, codable);
      var items := EncodeAll(front, encode);
      assert (items + [encode(last)])[..|items|] == items;
      assert xs == front + [last];
      assert All(xs, codable) <==> All(front, codable) && codable(last);
    }
  }

  lemma SeqFaithful<T>(xs: seq<T>, encode: T -> Json, decode: Json -> Parse<T>, codable: T -> bool)
    requires forall k | 0 <= k < |xs| :: Faithful(xs[k], decode(encode(xs[k])), codable(xs[k]))
    ensures Faithful(xs, DecodeSeq(EncodeSeq(xs, encode), decode), All(xs, codable))
  {
    AllFaithful(xs, encode, decode, codable);
  }

  function Strings(xs: seq<string>): Json {
    EncodeSeq(xs, (s: string) => Str(s))
  }

  function AsStrings(j: Json): Parse<seq<string>> {
    DecodeSeq(j, (i: Json) => AsStr(i))
  }

  lemma StringsFaithful(xs: seq<string>)
    ensures AsStrings(Strings(xs)) == Got(xs)
  {
    SeqFaithful(xs, (s: string) => Str(s), (i: Json) => AsStr(i), (s: string) => true);
  }

  // ----- dictionaries -----

  function EncodeDict(m: map<string, seq<string>>): Json {
    Dict(map k | k in m :: Strings(m[k]))
  }

  /** Every key must be a text that is not empty, every value a list of texts. */
  function DecodeDict(j: Json): Parse<map<string, seq<string>>> {
    if !j.Dict? then Bad
    else if exists k | k in j.entries :: k == "" || AsStrings(j.entries[k]).Bad? then Bad
    else Got(map k | k in j.entries :: AsStrings(j.entries[k]).Extract())
  }

  lemma DictFaithful(m: map<string, seq<string>>)
    ensures Faithful(m, DecodeDict(EncodeDict(m)), "" !in m)
  {
    forall k | k in m ensures AsStrings(Strings(m[k])) == Got(m[k]) {
      StringsFaithful(m[k]);
    }
    var entries := EncodeDict(m).entries;
    if "" in m {
      assert "" in entries;
    } else {
      assert (map k | k in entries :: AsStrings(entries[k]).Extract()) == m;
    }
  }
}
