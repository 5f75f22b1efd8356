/** The two database tools of the tracker agent that wrap their SQL execution
    (api.py `create_table` and `insert_info`). Each turns the outcome of one
    opaque statement execution into a tagged message and never raises: the
    agent reads failures as observations. The execution itself is an input,
    `Ok(text)` when it returned `text` and `Raised(msg)` when it raised an
    exception whose `str` is `msg`. */
module Tools {
  import opened Strings
  import opened Py

  type SqlOutcome = Outcome<string, string>

  const CreatedPrefix: string := "\U{2705} Table created successfully. Result: "
  const SkipNotice: string := "\U{2139}\U{FE0F} Table already exists. Skipping creation."
  const CreateFailedPrefix: string := "\U{274C} Failed to create table. Error: "
  const InsertedPrefix: string := "\U{2705} Data inserted successfully. Result: "
  const InsertFailedPrefix: string := "\U{274C} Failed to insert data. Error: "

  /** The phrase that turns a failed CREATE TABLE into a skip. */
  const AlreadyExists: string := "already exists"

  /** What `create_table` reports, before it is rendered as text. */
  datatype CreateStatus = Created(result: string) | Skipped | CreateFailed(error: string)

  /** What `insert_info` reports, before it is rendered as text. */
  datatype InsertStatus = Inserted(result: string) | InsertFailed(error: string)

  /** The decision `create_table` takes on an execution outcome. */
  function ClassifyCreate(o: SqlOutcome): (st: CreateStatus)
    ensures st.Created? <==> o.Ok?
    ensures st.Created? ==> st.result == o.value
    ensures st.Skipped? <==> o.Raised? && Occurs(o.error, AlreadyExists)
    ensures st.CreateFailed? <==> o.Raised? && !Occurs(o.error, AlreadyExists)
    ensures st.CreateFailed? ==> st.error == o.error
  {
    match o
    case Ok(result) => Created(result)
    case Raised(msg) => if Contains(msg, AlreadyExists) then Skipped else CreateFailed(msg)
  }

  function RenderCreate(st: CreateStatus): string
  {
    match st
    case Created(result) => CreatedPrefix + result
    case Skipped => SkipNotice
    case CreateFailed(msg) => CreateFailedPrefix + msg
  }

  /** Reads a `create_table` reply back into the status it reports. */
  function ParseCreate(r: string): Option<CreateStatus>
  {
    if HasPrefix(r, CreatedPrefix) then Some(Created(r[|CreatedPrefix|..]))
    else if r == SkipNotice then Some(Skipped)
    else if HasPrefix(r, CreateFailedPrefix) then Some(CreateFailed(r[|CreateFailedPrefix|..]))
    else None
  }

  /** The `create_table` tool: a success label carrying the execution's result,
      the fixed skip notice when the raised error mentions "already exists",
      and a failure label carrying the error text otherwise. */
  function CreateTable(o: SqlOutcome): (r: string)
    ensures HasPrefix(r, CreatedPrefix) <==> o.Ok?
    ensures r == SkipNotice <==> o.Raised? && Occurs(o.error, AlreadyExists)
    ensures HasPrefix(r, CreateFailedPrefix) <==> o.Raised? && !Occurs(o.error, AlreadyExists)
    ensures o.Ok? ==> r[|CreatedPrefix|..] == o.value
    ensures o.Raised? && !Occurs(o.error, AlreadyExists) ==> r[|CreateFailedPrefix|..] == o.error
  {
    var st := ClassifyCreate(o);
    match st
    case Created(result) =>
      PrefixThenRest(CreatedPrefix, result);
      assert !HasPrefix(CreatedPrefix + result, CreateFailedPrefix) by {
        assert (CreatedPrefix + result)[0] != CreateFailedPrefix[0];
      }
      RenderCreate(st)
    case Skipped =>
      assert !HasPrefix(SkipNotice, CreatedPrefix) by { assert SkipNotice[0] != CreatedPrefix[0]; }
      assert !HasPrefix(SkipNotice, CreateFailedPrefix) by { assert SkipNotice[0] != CreateFailedPrefix[0]; }
      RenderCreate(st)
    case CreateFailed(msg) =>
      PrefixThenRest(CreateFailedPrefix, msg);
      assert !HasPrefix(CreateFailedPrefix + msg, CreatedPrefix) by {
        assert (CreateFailedPrefix + msg)[0] != CreatedPrefix[0];
      }
      RenderCreate(st)
  }

  /** Every `create_table` reply can be read back into the decision that produced it. */
  lemma CreateTableReadsBack(o: SqlOutcome)
    ensures ParseCreate(CreateTable(o)) == Some(ClassifyCreate(o))
  {
    var r := CreateTable(o);
    match o
    case Ok(result) =>
    case Raised(msg) =>
      if !Contains(msg, AlreadyExists) {
        assert r[|CreateFailedPrefix|..] == msg;
        assert r != SkipNotice;
      }
  }

  /** A raised error that mentions "already exists" is acknowledged with the
      skip notice, never with a failure label, whatever else it says; so a
      second CREATE of an existing table reads as a non-failure. */
  lemma ExistingTableIsSkipped(msg: string, before: string, after: string)
    requires msg == before + AlreadyExists + after
    ensures CreateTable(Raised(msg)) == SkipNotice
    ensures !HasPrefix(CreateTable(Raised(msg)), CreateFailedPrefix)
  {
    assert msg[|before|..|before| + |AlreadyExists|] == AlreadyExists;
    assert OccursAt(msg, AlreadyExists, |before|);
  }

  /** The success label reflects only that the execution returned: a returned
      text that itself reports an error is still labelled a success. */
  lemma ReturnedTextIsLabelledSuccess(text: string)
    ensures HasPrefix(CreateTable(Ok(text)), CreatedPrefix)
    ensures HasPrefix(InsertInfo(Ok(text)), InsertedPrefix)
    ensures !HasPrefix(CreateTable(Ok(text)), CreateFailedPrefix)
    ensures !HasPrefix(InsertInfo(Ok(text)), InsertFailedPrefix)
  {
  }

  /** The decision `insert_info` takes on an execution outcome. */
  function ClassifyInsert(o: SqlOutcome): (st: InsertStatus)
    ensures st.Inserted? <==> o.Ok?
    ensures st.Inserted? ==> st.result == o.value
    ensures st.InsertFailed? ==> st.error == o.error
  {
    match o
    case Ok(result) => Inserted(result)
    case Raised(msg) => InsertFailed(msg)
  }

  function RenderInsert(st: InsertStatus): string
  {
    match st
    case Inserted(result) => InsertedPrefix + result
    case InsertFailed(msg) => InsertFailedPrefix + msg
  }

  /** Reads an `insert_info` reply back into the status it reports. */
  function ParseInsert(r: string): Option<InsertStatus>
  {
    if HasPrefix(r, InsertedPrefix) then Some(Inserted(r[|InsertedPrefix|..]))
    else if HasPrefix(r, InsertFailedPrefix) then Some(InsertFailed(r[|InsertFailedPrefix|..]))
    else None
  }

  /** The `insert_info` tool: a success label carrying the execution's result,
      or a failure label carrying the text of any raised error. */
  function InsertInfo(o: SqlOutcome): (r: string)
    ensures HasPrefix(r, InsertedPrefix) <==> o.Ok?
    ensures HasPrefix(r, InsertFailedPrefix) <==> o.Raised?
    ensures o.Ok? ==> r[|InsertedPrefix|..] == o.value
    ensures o.Raised? ==> r[|InsertFailedPrefix|..] == o.error
  {
    var st := ClassifyInsert(o);
    match st
    case Inserted(result) =>
      PrefixThenRest(InsertedPrefix, result);
      assert !HasPrefix(InsertedPrefix + result, InsertFailedPrefix) by {
        assert (InsertedPrefix + result)[0] != InsertFailedPrefix[0];
      }
      RenderInsert(st)
    case InsertFailed(msg) =>
      PrefixThenRest(InsertFailedPrefix, msg);
      assert !HasPrefix(InsertFailedPrefix + msg, InsertedPrefix) by {
        assert (InsertFailedPrefix + msg)[0] != InsertedPrefix[0];
      }
      RenderInsert(st)
  }

  /** Every `insert_info` reply can be read back into the decision that produced it. */
  lemma InsertInfoReadsBack(o: SqlOutcome)
    ensures ParseInsert(InsertInfo(o)) == Some(ClassifyInsert(o))
  {
  }

  /** The two tools never mistake each other's replies: a `create_table` reply
      never reads as an `insert_info` reply and vice versa. */
  lemma RepliesAreDistinct(o1: SqlOutcome, o2: SqlOutcome)
    ensures CreateTable(o1) != InsertInfo(o2)
  {
    var c := CreateTable(o1);
    var i := InsertInfo(o2);
    if o1.Ok? && o2.Ok? {
      assert c[..|CreatedPrefix|] == CreatedPrefix;
      assert i[..|InsertedPrefix|] == InsertedPrefix;
      assert c[2] != i[2];  // 'T' of "Table" against 'D' of "Data"
    } else if o1.Ok? {
      assert c[0] != i[0];
    } else if c == SkipNotice {
      assert c[0] != i[0];
    } else if o2.Raised? {
      assert c[..|CreateFailedPrefix|] == CreateFailedPrefix;
      assert i[..|InsertFailedPrefix|] == InsertFailedPrefix;
      assert c[12] != i[12];  // 'c' of "create" against 'i' of "insert"
    } else {
      assert c[0] != i[0];
    }
  }
}
