/**
  The record shapes of the application's tables (convex/schema.ts): one datatype per table, the
  table's field list with each field's kind and whether it is optional, the validation a document
  must pass to be stored in a table, and the vector index over story embeddings.

  A stored document is a map from field names to values; a record is the typed view of it. The
  encoding of a record as a document and the decoding of a conforming document are inverse to
  each other, which is what makes the datatypes a faithful picture of the tables.
*/
module Schema {
  import opened Wrappers

  /** A document id. The model draws ids of every table from one counter, so they are never reused. */
  type Id = nat

  /** A row of the `stories` table. */
  datatype Story = Story(
    userId: string,
    audioFileId: string,
    audioFileUrl: string,
    title: Option<string>,
    transcription: Option<string>,
    summary: Option<string>,
    embellishment: Option<string>,
    imageDescription: Option<string>,
    embedding: Option<seq<real>>,
    generatingTranscript: bool,
    generatingEmbellishment: Option<bool>,
    generatingImageDescription: Option<bool>,
    generatingTitle: bool,
    generatingActionItems: bool,
    generatingJoke: Option<bool>)

  /** A row of the (deprecated) `actionItems` table. */
  datatype ActionItem = ActionItem(userId: string, storyId: Id, task: string)

  /** A row of the `jokes` table. */
  datatype Joke = Joke(
    userId: string,
    storyId: Id,
    joke: string,
    embedding: Option<seq<real>>,
    generatingJoke: bool)

  /** A row of the `image` table. */
  datatype Image = Image(
    userId: string,
    storyId: Id,
    imageDescription: Option<string>,
    generatingImageDescription: bool,
    imageFileId: Option<string>,
    imageFileUrl: Option<string>,
    generatingImageFile: bool)

  // ---------------------------------------------------------------------------------------------
  // Documents and validators

  /** A field value as the database stores it. */
  datatype Value = Str(s: string) | Bool(b: bool) | Floats(xs: seq<real>) | Ref(id: Id)

  /** The field names the schema declares, over all four tables. */
  datatype FieldName =
    | FUserId
    | FAudioFileId
    | FAudioFileUrl
    | FTitle
    | FTranscription
    | FSummary
    | FEmbellishment
    | FImageDescription
    | FEmbedding
    | FGeneratingTranscript
    | FGeneratingEmbellishment
    | FGeneratingImageDescription
    | FGeneratingTitle
    | FGeneratingActionItems
    | FGeneratingJoke
    | FStoryId
    | FTask
    | FJoke
    | FImageFileId
    | FImageFileUrl
    | FGeneratingImageFile

  /** The name of a field as it is spelt in the schema and in stored documents. */
  function Name(f: FieldName): string {
    match f
    case FUserId => "userId"
    case FAudioFileId => "audioFileId"
    case FAudioFileUrl => "audioFileUrl"
    case FTitle => "title"
    case FTranscription => "transcription"
    case FSummary => "summary"
    case FEmbellishment => "embellishment"
    case FImageDescription => "imageDescription"
    case FEmbedding => "embedding"
    case FGeneratingTranscript => "generatingTranscript"
    case FGeneratingEmbellishment => "generatingEmbellishment"
    case FGeneratingImageDescription => "generatingImageDescription"
    case FGeneratingTitle => "generatingTitle"
    case FGeneratingActionItems => "generatingActionItems"
    case FGeneratingJoke => "generatingJoke"
    case FStoryId => "storyId"
    case FTask => "task"
    case FJoke => "joke"
    case FImageFileId => "imageFileId"
    case FImageFileUrl => "imageFileUrl"
    case FGeneratingImageFile => "generatingImageFile"
  }

  type Document = map<FieldName, Value>

  /** The validator of one field's value: `v.string()`, `v.boolean()`, `v.array(v.float64())`,
      `v.id(table)`. */
  datatype Kind = StringKind | BooleanKind | Float64ArrayKind | IdKind(table: TableName)

  /** A field declaration; `optional` is a validator wrapped in `v.optional(...)`. */
  datatype Validator = Validator(kind: Kind, optional: bool)

  datatype TableName = Stories | ActionItems | Jokes | Images

  function Required(k: Kind): Option<Validator> { Some(Validator(k, false)) }

  function Optional(k: Kind): Option<Validator> { Some(Validator(k, true)) }

  /** The schema: the validator declared for each field of each table, `None` for a field the
      table does not declare. */
  function Declaration(t: TableName, f: FieldName): Option<Validator> {
    match t
    case Stories => (
      match f
      case FUserId => Required(StringKind)
      case FAudioFileId => Required(StringKind)
      case FAudioFileUrl => Required(StringKind)
      case FTitle => Optional(StringKind)
      case FTranscription => Optional(StringKind)
      case FSummary => Optional(StringKind)
      case FEmbellishment => Optional(StringKind)
      case FImageDescription => Optional(StringKind)
      case FEmbedding => Optional(Float64ArrayKind)
      case FGeneratingTranscript => Required(BooleanKind)
      case FGeneratingEmbellishment => Optional(BooleanKind)
      case FGeneratingImageDescription => Optional(BooleanKind)
      case FGeneratingTitle => Required(BooleanKind)
      case FGeneratingActionItems => Required(BooleanKind)
      case FGeneratingJoke => Optional(BooleanKind)
      case _ => None)
    case ActionItems => (
      match f
      case FUserId => Required(StringKind)
      case FStoryId => Required(IdKind(Stories))
      case FTask => Required(StringKind)
      case _ => None)
    case Jokes => (
      match f
      case FUserId => Required(StringKind)
      case FStoryId => Required(IdKind(Stories))
      case FJoke => Required(StringKind)
      case FEmbedding => Optional(Float64ArrayKind)
      case FGeneratingJoke => Required(BooleanKind)
      case _ => None)
    case Images => (
      match f
      case FUserId => Required(StringKind)
      case FStoryId => Required(IdKind(Stories))
      case FImageDescription => Optional(StringKind)
      case FGeneratingImageDescription => Required(BooleanKind)
      case FImageFileId => Optional(StringKind)
      case FImageFileUrl => Optional(StringKind)
      case FGeneratingImageFile => Required(BooleanKind)
      case _ => None)
  }

  predicate HasKind(v: Value, k: Kind) {
    match k
    case StringKind => v.Str?
    case BooleanKind => v.Bool?
    case Float64ArrayKind => v.Floats?
    case IdKind(_) => v.Ref?
  }

  /** A document may be stored in a table when it has no undeclared field, every field it has holds
      a value of the declared kind, and no required field is missing. */
  predicate Conforms(d: Document, t: TableName) {
    && (forall f :: f in d ==> Declaration(t, f).Some? && HasKind(d[f], Declaration(t, f).value.kind))
    && (forall f :: Declaration(t, f).Some? && !Declaration(t, f).value.optional ==> f in d)
  }

  /** A vector index of a table: the field it indexes, the length of the vectors it holds and the
      fields a search may filter on. */
  datatype VectorIndex = VectorIndex(vectorField: FieldName, dimensions: nat, filterFields: seq<FieldName>)

  /** The `by_embedding` index of the stories table. */
  const ByEmbedding := VectorIndex(FEmbedding, 768, [FUserId])

  /** A story is in the `by_embedding` index when it has an embedding of the index's length. */
  predicate Indexed(s: Story) {
    s.embedding.Some? && |s.embedding.value| == ByEmbedding.dimensions
  }

  /** The index's vector field is an optional array of numbers of the stories table, and its one
      filter field is the stories' required owner. */
  lemma ByEmbeddingIsDeclared()
    ensures Declaration(Stories, ByEmbedding.vectorField) == Optional(Float64ArrayKind)
    ensures forall f :: f in ByEmbedding.filterFields ==>
      f == FUserId && Declaration(Stories, f) == Required(StringKind)
  {
  }

  // ---------------------------------------------------------------------------------------------
  // Encoding records as documents, and reading them back

  function OptionalStr(o: Option<string>): Option<Value> {
    if o.Some? then Some(Str(o.value)) else None
  }

  function OptionalBool(o: Option<bool>): Option<Value> {
    if o.Some? then Some(Bool(o.value)) else None
  }

  function OptionalFloats(o: Option<seq<real>>): Option<Value> {
    if o.Some? then Some(Floats(o.value)) else None
  }

  function StringAt(d: Document, f: FieldName): string {
    var v := Stored(d, f);
    if v.Some? && v.value.Str? then v.value.s else ""
  }

  function BoolAt(d: Document, f: FieldName): bool {
    var v := Stored(d, f);
    v.Some? && v.value.Bool? && v.value.b
  }

  function IdAt(d: Document, f: FieldName): Id {
    var v := Stored(d, f);
    if v.Some? && v.value.Ref? then v.value.id else 0
  }

  function OptionalStringAt(d: Document, f: FieldName): Option<string> {
    var v := Stored(d, f);
    if v.Some? && v.value.Str? then Some(v.value.s) else None
  }

  function OptionalBoolAt(d: Document, f: FieldName): Option<bool> {
    var v := Stored(d, f);
    if v.Some? && v.value.Bool? then Some(v.value.b) else None
  }

  function OptionalFloatsAt(d: Document, f: FieldName): Option<seq<real>> {
    var v := Stored(d, f);
    if v.Some? && v.value.Floats? then Some(v.value.xs) else None
  }

  /** The entry a document holds for a field, `None` when the field is absent. */
  function Stored(d: Document, f: FieldName): Option<Value> {
    if f in d then Some(d[f]) else None
  }

  function StoryEntry(s: Story, f: FieldName): Option<Value> {
    match f
    case FUserId => Some(Str(s.userId))
    case FAudioFileId => Some(Str(s.audioFileId))
    case FAudioFileUrl => Some(Str(s.audioFileUrl))
    case FTitle => OptionalStr(s.title)
    case FTranscription => OptionalStr(s.transcription)
    case FSummary => OptionalStr(s.summary)
    case FEmbellishment => OptionalStr(s.embellishment)
    case FImageDescription => OptionalStr(s.imageDescription)
    case FEmbedding => OptionalFloats(s.embedding)
    case FGeneratingTranscript => Some(Bool(s.generatingTranscript))
    case FGeneratingEmbellishment => OptionalBool(s.generatingEmbellishment)
    case FGeneratingImageDescription => OptionalBool(s.generatingImageDescription)
    case FGeneratingTitle => Some(Bool(s.generatingTitle))
    case FGeneratingActionItems => Some(Bool(s.generatingActionItems))
    case FGeneratingJoke => OptionalBool(s.generatingJoke)
    case _ => None
  }

  /** The document stored for a record: one entry per field the record has a value for. */
  function StoryDocument(s: Story): (d: Document)
    ensures forall f :: f in d <==> StoryEntry(s, f).Some?
    ensures forall f :: f in d ==> d[f] == StoryEntry(s, f).value
  {
    map f: FieldName | StoryEntry(s, f).Some? :: StoryEntry(s, f).value
  }

  lemma StoryStored(s: Story, f: FieldName)
    ensures Stored(StoryDocument(s), f) == StoryEntry(s, f)
  {
  }

  function StoryOf(d: Document): Option<Story> {
    if Conforms(d, Stories) then Some(ReadStory(d)) else None
  }

  function ReadStory(d: Document): Story {
    Story(
      StringAt(d, FUserId),
      StringAt(d, FAudioFileId),
      StringAt(d, FAudioFileUrl),
      OptionalStringAt(d, FTitle),
      OptionalStringAt(d, FTranscription),
      OptionalStringAt(d, FSummary),
      OptionalStringAt(d, FEmbellishment),
      OptionalStringAt(d, FImageDescription),
      OptionalFloatsAt(d, FEmbedding),
      BoolAt(d, FGeneratingTranscript),
      OptionalBoolAt(d, FGeneratingEmbellishment),
      OptionalBoolAt(d, FGeneratingImageDescription),
      BoolAt(d, FGeneratingTitle),
      BoolAt(d, FGeneratingActionItems),
      OptionalBoolAt(d, FGeneratingJoke))
  }


  function ActionItemEntry(a: ActionItem, f: FieldName): Option<Value> {
    match f
    case FUserId => Some(Str(a.userId))
    case FStoryId => Some(Ref(a.storyId))
    case FTask => Some(Str(a.task))
    case _ => None
  }

  /** The document stored for a record: one entry per field the record has a value for. */
  function ActionItemDocument(a: ActionItem): (d: Document)
    ensures forall f :: f in d <==> ActionItemEntry(a, f).Some?
    ensures forall f :: f in d ==> d[f] == ActionItemEntry(a, f).value
  {
    map f: FieldName | ActionItemEntry(a, f).Some? :: ActionItemEntry(a, f).value
  }

  lemma ActionItemStored(a: ActionItem, f: FieldName)
    ensures Stored(ActionItemDocument(a), f) == ActionItemEntry(a, f)
  {
  }

  function ActionItemOf(d: Document): Option<ActionItem> {
    if Conforms(d, ActionItems) then Some(ReadActionItem(d)) else None
  }

  function ReadActionItem(d: Document): ActionItem {
    ActionItem(StringAt(d, FUserId), IdAt(d, FStoryId), StringAt(d, FTask))
  }


  function JokeEntry(j: Joke, f: FieldName): Option<Value> {
    match f
    case FUserId => Some(Str(j.userId))
    case FStoryId => Some(Ref(j.storyId))
    case FJoke => Some(Str(j.joke))
    case FEmbedding => OptionalFloats(j.embedding)
    case FGeneratingJoke => Some(Bool(j.generatingJoke))
    case _ => None
  }

  /** The document stored for a record: one entry per field the record has a value for. */
  function JokeDocument(j: Joke): (d: Document)
    ensures forall f :: f in d <==> JokeEntry(j, f).Some?
    ensures forall f :: f in d ==> d[f] == JokeEntry(j, f).value
  {
    map f: FieldName | JokeEntry(j, f).Some? :: JokeEntry(j, f).value
  }

  lemma JokeStored(j: Joke, f: FieldName)
    ensures Stored(JokeDocument(j), f) == JokeEntry(j, f)
  {
  }

  function JokeOf(d: Document): Option<Joke> {
    if Conforms(d, Jokes) then Some(ReadJoke(d)) else None
  }

  function ReadJoke(d: Document): Joke {
    Joke(
      StringAt(d, FUserId),
      IdAt(d, FStoryId),
      StringAt(d, FJoke),
      OptionalFloatsAt(d, FEmbedding),
      BoolAt(d, FGeneratingJoke))
  }


  function ImageEntry(i: Image, f: FieldName): Option<Value> {
    match f
    case FUserId => Some(Str(i.userId))
    case FStoryId => Some(Ref(i.storyId))
    case FImageDescription => OptionalStr(i.imageDescription)
    case FGeneratingImageDescription => Some(Bool(i.generatingImageDescription))
    case FImageFileId => OptionalStr(i.imageFileId)
    case FImageFileUrl => OptionalStr(i.imageFileUrl)
    case FGeneratingImageFile => Some(Bool(i.generatingImageFile))
    case _ => None
  }

  /** The document stored for a record: one entry per field the record has a value for. */
  function ImageDocument(i: Image): (d: Document)
    ensures forall f :: f in d <==> ImageEntry(i, f).Some?
    ensures forall f :: f in d ==> d[f] == ImageEntry(i, f).value
  {
    map f: FieldName | ImageEntry(i, f).Some? :: ImageEntry(i, f).value
  }

  lemma ImageStored(i: Image, f: FieldName)
    ensures Stored(ImageDocument(i), f) == ImageEntry(i, f)
  {
  }

  function ImageOf(d: Document): Option<Image> {
    if Conforms(d, Images) then Some(ReadImage(d)) else None
  }

  function ReadImage(d: Document): Image {
    Image(
      StringAt(d, FUserId),
      IdAt(d, FStoryId),
      OptionalStringAt(d, FImageDescription),
      BoolAt(d, FGeneratingImageDescription),
      OptionalStringAt(d, FImageFileId),
      OptionalStringAt(d, FImageFileUrl),
      BoolAt(d, FGeneratingImageFile))
  }


  /** Two documents with the same entry for every field are the same document. */
  lemma StoredAgree(d: Document, e: Document)
    requires forall f :: Stored(d, f) == Stored(e, f)
    ensures d == e
  {
    forall f ensures (f in d <==> f in e) && (f in d ==> d[f] == e[f]) {
      assert Stored(d, f) == Stored(e, f);
    }
  }

  lemma RequiredStringStored(d: Document, t: TableName, f: FieldName)
    requires Conforms(d, t) && Declaration(t, f) == Required(StringKind)
    ensures Stored(d, f) == Some(Str(StringAt(d, f)))
  {
  }

  lemma RequiredBoolStored(d: Document, t: TableName, f: FieldName)
    requires Conforms(d, t) && Declaration(t, f) == Required(BooleanKind)
    ensures Stored(d, f) == Some(Bool(BoolAt(d, f)))
  {
  }

  lemma RequiredRefStored(d: Document, t: TableName, f: FieldName)
    requires Conforms(d, t) && Declaration(t, f) == Required(IdKind(Stories))
    ensures Stored(d, f) == Some(Ref(IdAt(d, f)))
  {
  }

  lemma OptionalStringStored(d: Document, t: TableName, f: FieldName)
    requires Conforms(d, t) && Declaration(t, f) == Optional(StringKind)
    ensures Stored(d, f) == OptionalStr(OptionalStringAt(d, f))
  {
  }

  lemma OptionalBoolStored(d: Document, t: TableName, f: FieldName)
    requires Conforms(d, t) && Declaration(t, f) == Optional(BooleanKind)
    ensures Stored(d, f) == OptionalBool(OptionalBoolAt(d, f))
  {
  }

  lemma OptionalFloatsStored(d: Document, t: TableName, f: FieldName)
    requires Conforms(d, t) && Declaration(t, f) == Optional(Float64ArrayKind)
    ensures Stored(d, f) == OptionalFloats(OptionalFloatsAt(d, f))
  {
  }

  lemma UndeclaredNotStored(d: Document, t: TableName, f: FieldName)
    requires Conforms(d, t) && Declaration(t, f).None?
    ensures Stored(d, f) == None
  {
  }

  /** Every story record is storable, and reading its document back gives the record. */
  lemma StoryRoundTrip(s: Story)
    ensures Conforms(StoryDocument(s), Stories)
    ensures StoryOf(StoryDocument(s)) == Some(s)
  {
    StoryDocumentConforms(s);
    StoryDocumentReadsBack(s);
  }

  lemma StoryDocumentConforms(s: Story)
    ensures Conforms(StoryDocument(s), Stories)
  {
    var d := StoryDocument(s);
    forall f
      ensures f in d ==> Declaration(Stories, f).Some? && HasKind(d[f], Declaration(Stories, f).value.kind)
      ensures Declaration(Stories, f).Some? && !Declaration(Stories, f).value.optional ==> f in d
    {
      // An empty case per field name splits the obligation into one small proof per field; taken
      // all at once it is too costly for the solver. The other three tables use the same shape.
      match f
      case FUserId =>
      case FAudioFileId =>
      case FAudioFileUrl =>
      case FTitle =>
      case FTranscription =>
      case FSummary =>
      case FEmbellishment =>
      case FImageDescription =>
      case FEmbedding =>
      case FGeneratingTranscript =>
      case FGeneratingEmbellishment =>
      case FGeneratingImageDescription =>
      case FGeneratingTitle =>
      case FGeneratingActionItems =>
      case FGeneratingJoke =>
      case FStoryId =>
      case FTask =>
      case FJoke =>
      case FImageFileId =>
      case FImageFileUrl =>
      case FGeneratingImageFile =>
    }
  }

  lemma StoryDocumentReadsBack(s: Story)
    ensures ReadStory(StoryDocument(s)) == s
  {
    StoryStoredFields1(s);
    StoryStoredFields2(s);
    StoryStoredFields3(s);
    StoryStoredFields4(s);
    ReadStoryFromEntries(StoryDocument(s), s);
  }

  // The stored fields are shown in groups (here and for jokes and images) for the same reason:
  // one lemma naming every field is too costly to prove.
  lemma StoryStoredFields1(s: Story)
    ensures Stored(StoryDocument(s), FUserId) == Some(Str(s.userId))
    ensures Stored(StoryDocument(s), FAudioFileId) == Some(Str(s.audioFileId))
    ensures Stored(StoryDocument(s), FAudioFileUrl) == Some(Str(s.audioFileUrl))
    ensures Stored(StoryDocument(s), FTitle) == OptionalStr(s.title)
  {
    StoryStored(s, FUserId);
    StoryStored(s, FAudioFileId);
    StoryStored(s, FAudioFileUrl);
    StoryStored(s, FTitle);
  }

  lemma StoryStoredFields2(s: Story)
    ensures Stored(StoryDocument(s), FTranscription) == OptionalStr(s.transcription)
    ensures Stored(StoryDocument(s), FSummary) == OptionalStr(s.summary)
    ensures Stored(StoryDocument(s), FEmbellishment) == OptionalStr(s.embellishment)
    ensures Stored(StoryDocument(s), FImageDescription) == OptionalStr(s.imageDescription)
  {
    StoryStored(s, FTranscription);
    StoryStored(s, FSummary);
    StoryStored(s, FEmbellishment);
    StoryStored(s, FImageDescription);
  }

  lemma StoryStoredFields3(s: Story)
    ensures Stored(StoryDocument(s), FEmbedding) == OptionalFloats(s.embedding)
    ensures Stored(StoryDocument(s), FGeneratingTranscript) == Some(Bool(s.generatingTranscript))
    ensures Stored(StoryDocument(s), FGeneratingEmbellishment) == OptionalBool(s.generatingEmbellishment)
    ensures Stored(StoryDocument(s), FGeneratingImageDescription) ==
      OptionalBool(s.generatingImageDescription)
  {
    StoryStored(s, FEmbedding);
    StoryStored(s, FGeneratingTranscript);
    StoryStored(s, FGeneratingEmbellishment);
    StoryStored(s, FGeneratingImageDescription);
  }

  lemma StoryStoredFields4(s: Story)
    ensures Stored(StoryDocument(s), FGeneratingTitle) == Some(Bool(s.generatingTitle))
    ensures Stored(StoryDocument(s), FGeneratingActionItems) == Some(Bool(s.generatingActionItems))
    ensures Stored(StoryDocument(s), FGeneratingJoke) == OptionalBool(s.generatingJoke)
  {
    StoryStored(s, FGeneratingTitle);
    StoryStored(s, FGeneratingActionItems);
    StoryStored(s, FGeneratingJoke);
  }

  /** Reading a record back needs only the entries of its own fields. */
  lemma ReadStoryFromEntries(d: Document, s: Story)
    requires Stored(d, FUserId) == Some(Str(s.userId))
    requires Stored(d, FAudioFileId) == Some(Str(s.audioFileId))
    requires Stored(d, FAudioFileUrl) == Some(Str(s.audioFileUrl))
    requires Stored(d, FTitle) == OptionalStr(s.title)
    requires Stored(d, FTranscription) == OptionalStr(s.transcription)
    requires Stored(d, FSummary) == OptionalStr(s.summary)
    requires Stored(d, FEmbellishment) == OptionalStr(s.embellishment)
    requires Stored(d, FImageDescription) == OptionalStr(s.imageDescription)
    requires Stored(d, FEmbedding) == OptionalFloats(s.embedding)
    requires Stored(d, FGeneratingTranscript) == Some(Bool(s.generatingTranscript))
    requires Stored(d, FGeneratingEmbellishment) == OptionalBool(s.generatingEmbellishment)
    requires Stored(d, FGeneratingImageDescription) == OptionalBool(s.generatingImageDescription)
    requires Stored(d, FGeneratingTitle) == Some(Bool(s.generatingTitle))
    requires Stored(d, FGeneratingActionItems) == Some(Bool(s.generatingActionItems))
    requires Stored(d, FGeneratingJoke) == OptionalBool(s.generatingJoke)
    ensures ReadStory(d) == s
  {
  }

  /** Every document the `stories` validator accepts is the encoding of the record read from it. */
  lemma StoryDocumentsAreEncodings(d: Document)
    requires Conforms(d, Stories)
    ensures StoryOf(d) == Some(ReadStory(d)) && StoryDocument(ReadStory(d)) == d
  {
    var e := StoryDocument(ReadStory(d));
    forall f ensures Stored(e, f) == Stored(d, f) {
      StoryStored(ReadStory(d), f);
      StoryEntryAgrees(d, f);
    }
    StoredAgree(e, d);
  }

  lemma StoryEntryAgrees(d: Document, f: FieldName)
    requires Conforms(d, Stories)
    ensures StoryEntry(ReadStory(d), f) == Stored(d, f)
  {
    match f
    case FUserId => RequiredStringStored(d, Stories, f);
    case FAudioFileId => RequiredStringStored(d, Stories, f);
    case FAudioFileUrl => RequiredStringStored(d, Stories, f);
    case FTitle => OptionalStringStored(d, Stories, f);
    case FTranscription => OptionalStringStored(d, Stories, f);
    case FSummary => OptionalStringStored(d, Stories, f);
    case FEmbellishment => OptionalStringStored(d, Stories, f);
    case FImageDescription => OptionalStringStored(d, Stories, f);
    case FEmbedding => OptionalFloatsStored(d, Stories, f);
    case FGeneratingTranscript => RequiredBoolStored(d, Stories, f);
    case FGeneratingEmbellishment => OptionalBoolStored(d, Stories, f);
    case FGeneratingImageDescription => OptionalBoolStored(d, Stories, f);
    case FGeneratingTitle => RequiredBoolStored(d, Stories, f);
    case FGeneratingActionItems => RequiredBoolStored(d, Stories, f);
    case FGeneratingJoke => OptionalBoolStored(d, Stories, f);
    case FStoryId => UndeclaredNotStored(d, Stories, f);
    case FTask => UndeclaredNotStored(d, Stories, f);
    case FJoke => UndeclaredNotStored(d, Stories, f);
    case FImageFileId => UndeclaredNotStored(d, Stories, f);
    case FImageFileUrl => UndeclaredNotStored(d, Stories, f);
    case FGeneratingImageFile => UndeclaredNotStored(d, Stories, f);
  }

  /** Every action item record is storable, and reading its document back gives the record. */
  lemma ActionItemRoundTrip(a: ActionItem)
    ensures Conforms(ActionItemDocument(a), ActionItems)
    ensures ActionItemOf(ActionItemDocument(a)) == Some(a)
  {
    ActionItemDocumentConforms(a);
    ActionItemDocumentReadsBack(a);
  }

  lemma ActionItemDocumentConforms(a: ActionItem)
    ensures Conforms(ActionItemDocument(a), ActionItems)
  {
    var d := ActionItemDocument(a);
    forall f
      ensures f in d ==>
        Declaration(ActionItems, f).Some? && HasKind(d[f], Declaration(ActionItems, f).value.kind)
      ensures Declaration(ActionItems, f).Some? && !Declaration(ActionItems, f).value.optional ==> f in d
    {
      match f
      case FUserId =>
      case FAudioFileId =>
      case FAudioFileUrl =>
      case FTitle =>
      case FTranscription =>
      case FSummary =>
      case FEmbellishment =>
      case FImageDescription =>
      case FEmbedding =>
      case FGeneratingTranscript =>
      case FGeneratingEmbellishment =>
      case FGeneratingImageDescription =>
      case FGeneratingTitle =>
      case FGeneratingActionItems =>
      case FGeneratingJoke =>
      case FStoryId =>
      case FTask =>
      case FJoke =>
      case FImageFileId =>
      case FImageFileUrl =>
      case FGeneratingImageFile =>
    }
  }

  lemma ActionItemDocumentReadsBack(a: ActionItem)
    ensures ReadActionItem(ActionItemDocument(a)) == a
  {
    ActionItemStoredFields(a);
    ReadActionItemFromEntries(ActionItemDocument(a), a);
  }

  lemma ActionItemStoredFields(a: ActionItem)
    ensures Stored(ActionItemDocument(a), FUserId) == Some(Str(a.userId))
    ensures Stored(ActionItemDocument(a), FStoryId) == Some(Ref(a.storyId))
    ensures Stored(ActionItemDocument(a), FTask) == Some(Str(a.task))
  {
    ActionItemStored(a, FUserId);
    ActionItemStored(a, FStoryId);
    ActionItemStored(a, FTask);
  }

  /** Reading a record back needs only the entries of its own fields. */
  lemma ReadActionItemFromEntries(d: Document, a: ActionItem)
    requires Stored(d, FUserId) == Some(Str(a.userId))
    requires Stored(d, FStoryId) == Some(Ref(a.storyId))
    requires Stored(d, FTask) == Some(Str(a.task))
    ensures ReadActionItem(d) == a
  {
  }

  /** Every document the `actionItems` validator accepts is the encoding of the record read from it. */
  lemma ActionItemDocumentsAreEncodings(d: Document)
    requires Conforms(d, ActionItems)
    ensures ActionItemOf(d) == Some(ReadActionItem(d)) && ActionItemDocument(ReadActionItem(d)) == d
  {
    var e := ActionItemDocument(ReadActionItem(d));
    forall f ensures Stored(e, f) == Stored(d, f) {
      ActionItemStored(ReadActionItem(d), f);
      ActionItemEntryAgrees(d, f);
    }
    StoredAgree(e, d);
  }

  lemma ActionItemEntryAgrees(d: Document, f: FieldName)
    requires Conforms(d, ActionItems)
    ensures ActionItemEntry(ReadActionItem(d), f) == Stored(d, f)
  {
    match f
    case FUserId => RequiredStringStored(d, ActionItems, f);
    case FAudioFileId => UndeclaredNotStored(d, ActionItems, f);
    case FAudioFileUrl => UndeclaredNotStored(d, ActionItems, f);
    case FTitle => UndeclaredNotStored(d, ActionItems, f);
    case FTranscription => UndeclaredNotStored(d, ActionItems, f);
    case FSummary => UndeclaredNotStored(d, ActionItems, f);
    case FEmbellishment => UndeclaredNotStored(d, ActionItems, f);
    case FImageDescription => UndeclaredNotStored(d, ActionItems, f);
    case FEmbedding => UndeclaredNotStored(d, ActionItems, f);
    case FGeneratingTranscript => UndeclaredNotStored(d, ActionItems, f);
    case FGeneratingEmbellishment => UndeclaredNotStored(d, ActionItems, f);
    case FGeneratingImageDescription => UndeclaredNotStored(d, ActionItems, f);
    case FGeneratingTitle => UndeclaredNotStored(d, ActionItems, f);
    case FGeneratingActionItems => UndeclaredNotStored(d, ActionItems, f);
    case FGeneratingJoke => UndeclaredNotStored(d, ActionItems, f);
    case FStoryId => RequiredRefStored(d, ActionItems, f);
    case FTask => RequiredStringStored(d, ActionItems, f);
    case FJoke => UndeclaredNotStored(d, ActionItems, f);
    case FImageFileId => UndeclaredNotStored(d, ActionItems, f);
    case FImageFileUrl => UndeclaredNotStored(d, ActionItems, f);
    case FGeneratingImageFile => UndeclaredNotStored(d, ActionItems, f);
  }

  /** Every joke record is storable, and reading its document back gives the record. */
  lemma JokeRoundTrip(j: Joke)
    ensures Conforms(JokeDocument(j), Jokes)
    ensures JokeOf(JokeDocument(j)) == Some(j)
  {
    JokeDocumentConforms(j);
    JokeDocumentReadsBack(j);
  }

  lemma JokeDocumentConforms(j: Joke)
    ensures Conforms(JokeDocument(j), Jokes)
  {
    var d := JokeDocument(j);
    forall f
      ensures f in d ==> Declaration(Jokes, f).Some? && HasKind(d[f], Declaration(Jokes, f).value.kind)
      ensures Declaration(Jokes, f).Some? && !Declaration(Jokes, f).value.optional ==> f in d
    {
      match f
      case FUserId =>
      case FAudioFileId =>
      case FAudioFileUrl =>
      case FTitle =>
      case FTranscription =>
      case FSummary =>
      case FEmbellishment =>
      case FImageDescription =>
      case FEmbedding =>
      case FGeneratingTranscript =>
      case FGeneratingEmbellishment =>
      case FGeneratingImageDescription =>
      case FGeneratingTitle =>
      case FGeneratingActionItems =>
      case FGeneratingJoke =>
      case FStoryId =>
      case FTask =>
      case FJoke =>
      case FImageFileId =>
      case FImageFileUrl =>
      case FGeneratingImageFile =>
    }
  }

  lemma JokeDocumentReadsBack(j: Joke)
    ensures ReadJoke(JokeDocument(j)) == j
  {
    JokeStoredFields1(j);
    JokeStoredFields2(j);
    ReadJokeFromEntries(JokeDocument(j), j);
  }

  lemma JokeStoredFields1(j: Joke)
    ensures Stored(JokeDocument(j), FUserId) == Some(Str(j.userId))
    ensures Stored(JokeDocument(j), FStoryId) == Some(Ref(j.storyId))
    ensures Stored(JokeDocument(j), FJoke) == Some(Str(j.joke))
    ensures Stored(JokeDocument(j), FEmbedding) == OptionalFloats(j.embedding)
  {
    JokeStored(j, FUserId);
    JokeStored(j, FStoryId);
    JokeStored(j, FJoke);
    JokeStored(j, FEmbedding);
  }

  lemma JokeStoredFields2(j: Joke)
    ensures Stored(JokeDocument(j), FGeneratingJoke) == Some(Bool(j.generatingJoke))
  {
    JokeStored(j, FGeneratingJoke);
  }

  /** Reading a record back needs only the entries of its own fields. */
  lemma ReadJokeFromEntries(d: Document, j: Joke)
    requires Stored(d, FUserId) == Some(Str(j.userId))
    requires Stored(d, FStoryId) == Some(Ref(j.storyId))
    requires Stored(d, FJoke) == Some(Str(j.joke))
    requires Stored(d, FEmbedding) == OptionalFloats(j.embedding)
    requires Stored(d, FGeneratingJoke) == Some(Bool(j.generatingJoke))
    ensures ReadJoke(d) == j
  {
  }

  /** Every document the `jokes` validator accepts is the encoding of the record read from it. */
  lemma JokeDocumentsAreEncodings(d: Document)
    requires Conforms(d, Jokes)
    ensures JokeOf(d) == Some(ReadJoke(d)) && JokeDocument(ReadJoke(d)) == d
  {
    var e := JokeDocument(ReadJoke(d));
    forall f ensures Stored(e, f) == Stored(d, f) {
      JokeStored(ReadJoke(d), f);
      JokeEntryAgrees(d, f);
    }
    StoredAgree(e, d);
  }

  lemma JokeEntryAgrees(d: Document, f: FieldName)
    requires Conforms(d, Jokes)
    ensures JokeEntry(ReadJoke(d), f) == Stored(d, f)
  {
    match f
    case FUserId => RequiredStringStored(d, Jokes, f);
    case FAudioFileId => UndeclaredNotStored(d, Jokes, f);
    case FAudioFileUrl => UndeclaredNotStored(d, Jokes, f);
    case FTitle => UndeclaredNotStored(d, Jokes, f);
    case FTranscription => UndeclaredNotStored(d, Jokes, f);
    case FSummary => UndeclaredNotStored(d, Jokes, f);
    case FEmbellishment => UndeclaredNotStored(d, Jokes, f);
    case FImageDescription => UndeclaredNotStored(d, Jokes, f);
    case FEmbedding => OptionalFloatsStored(d, Jokes, f);
    case FGeneratingTranscript => UndeclaredNotStored(d, Jokes, f);
    case FGeneratingEmbellishment => UndeclaredNotStored(d, Jokes, f);
    case FGeneratingImageDescription => UndeclaredNotStored(d, Jokes, f);
    case FGeneratingTitle => UndeclaredNotStored(d, Jokes, f);
    case FGeneratingActionItems => UndeclaredNotStored(d, Jokes, f);
    case FGeneratingJoke => RequiredBoolStored(d, Jokes, f);
    case FStoryId => RequiredRefStored(d, Jokes, f);
    case FTask => UndeclaredNotStored(d, Jokes, f);
    case FJoke => RequiredStringStored(d, Jokes, f);
    case FImageFileId => UndeclaredNotStored(d, Jokes, f);
    case FImageFileUrl => UndeclaredNotStored(d, Jokes, f);
    case FGeneratingImageFile => UndeclaredNotStored(d, Jokes, f);
  }

  /** Every image record is storable, and reading its document back gives the record. */
  lemma ImageRoundTrip(i: Image)
    ensures Conforms(ImageDocument(i), Images)
    ensures ImageOf(ImageDocument(i)) == Some(i)
  {
    ImageDocumentConforms(i);
    ImageDocumentReadsBack(i);
  }

  lemma ImageDocumentConforms(i: Image)
    ensures Conforms(ImageDocument(i), Images)
  {
    var d := ImageDocument(i);
    forall f
      ensures f in d ==> Declaration(Images, f).Some? && HasKind(d[f], Declaration(Images, f).value.kind)
      ensures Declaration(Images, f).Some? && !Declaration(Images, f).value.optional ==> f in d
    {
      match f
      case FUserId =>
      case FAudioFileId =>
      case FAudioFileUrl =>
      case FTitle =>
      case FTranscription =>
      case FSummary =>
      case FEmbellishment =>
      case FImageDescription =>
      case FEmbedding =>
      case FGeneratingTranscript =>
      case FGeneratingEmbellishment =>
      case FGeneratingImageDescription =>
      case FGeneratingTitle =>
      case FGeneratingActionItems =>
      case FGeneratingJoke =>
      case FStoryId =>
      case FTask =>
      case FJoke =>
      case FImageFileId =>
      case FImageFileUrl =>
      case FGeneratingImageFile =>
    }
  }

  lemma ImageDocumentReadsBack(i: Image)
    ensures ReadImage(ImageDocument(i)) == i
  {
    ImageStoredFields1(i);
    ImageStoredFields2(i);
    ReadImageFromEntries(ImageDocument(i), i);
  }

  lemma ImageStoredFields1(i: Image)
    ensures Stored(ImageDocument(i), FUserId) == Some(Str(i.userId))
    ensures Stored(ImageDocument(i), FStoryId) == Some(Ref(i.storyId))
    ensures Stored(ImageDocument(i), FImageDescription) == OptionalStr(i.imageDescription)
    ensures Stored(ImageDocument(i), FGeneratingImageDescription) == Some(Bool(i.generatingImageDescription))
  {
    ImageStored(i, FUserId);
    ImageStored(i, FStoryId);
    ImageStored(i, FImageDescription);
    ImageStored(i, FGeneratingImageDescription);
  }

  lemma ImageStoredFields2(i: Image)
    ensures Stored(ImageDocument(i), FImageFileId) == OptionalStr(i.imageFileId)
    ensures Stored(ImageDocument(i), FImageFileUrl) == OptionalStr(i.imageFileUrl)
    ensures Stored(ImageDocument(i), FGeneratingImageFile) == Some(Bool(i.generatingImageFile))
  {
    ImageStored(i, FImageFileId);
    ImageStored(i, FImageFileUrl);
    ImageStored(i, FGeneratingImageFile);
  }

  /** Reading a record back needs only the entries of its own fields. */
  lemma ReadImageFromEntries(d: Document, i: Image)
    requires Stored(d, FUserId) == Some(Str(i.userId))
    requires Stored(d, FStoryId) == Some(Ref(i.storyId))
    requires Stored(d, FImageDescription) == OptionalStr(i.imageDescription)
    requires Stored(d, FGeneratingImageDescription) == Some(Bool(i.generatingImageDescription))
    requires Stored(d, FImageFileId) == OptionalStr(i.imageFileId)
    requires Stored(d, FImageFileUrl) == OptionalStr(i.imageFileUrl)
    requires Stored(d, FGeneratingImageFile) == Some(Bool(i.generatingImageFile))
    ensures ReadImage(d) == i
  {
  }

  /** Every document the `image` validator accepts is the encoding of the record read from it. */
  lemma ImageDocumentsAreEncodings(d: Document)
    requires Conforms(d, Images)
    ensures ImageOf(d) == Some(ReadImage(d)) && ImageDocument(ReadImage(d)) == d
  {
    var e := ImageDocument(ReadImage(d));
    forall f ensures Stored(e, f) == Stored(d, f) {
      ImageStored(ReadImage(d), f);
      ImageEntryAgrees(d, f);
    }
    StoredAgree(e, d);
  }

  lemma ImageEntryAgrees(d: Document, f: FieldName)
    requires Conforms(d, Images)
    ensures ImageEntry(ReadImage(d), f) == Stored(d, f)
  {
    match f
    case FUserId => RequiredStringStored(d, Images, f);
    case FAudioFileId => UndeclaredNotStored(d, Images, f);
    case FAudioFileUrl => UndeclaredNotStored(d, Images, f);
    case FTitle => UndeclaredNotStored(d, Images, f);
    case FTranscription => UndeclaredNotStored(d, Images, f);
    case FSummary => UndeclaredNotStored(d, Images, f);
    case FEmbellishment => UndeclaredNotStored(d, Images, f);
    case FImageDescription => OptionalStringStored(d, Images, f);
    case FEmbedding => UndeclaredNotStored(d, Images, f);
    case FGeneratingTranscript => UndeclaredNotStored(d, Images, f);
    case FGeneratingEmbellishment => UndeclaredNotStored(d, Images, f);
    case FGeneratingImageDescription => RequiredBoolStored(d, Images, f);
    case FGeneratingTitle => UndeclaredNotStored(d, Images, f);
    case FGeneratingActionItems => UndeclaredNotStored(d, Images, f);
    case FGeneratingJoke => UndeclaredNotStored(d, Images, f);
    case FStoryId => RequiredRefStored(d, Images, f);
    case FTask => UndeclaredNotStored(d, Images, f);
    case FJoke => UndeclaredNotStored(d, Images, f);
    case FImageFileId => OptionalStringStored(d, Images, f);
    case FImageFileUrl => OptionalStringStored(d, Images, f);
    case FGeneratingImageFile => RequiredBoolStored(d, Images, f);
  }
}
