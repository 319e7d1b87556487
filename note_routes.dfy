/**
 * The note API handlers: input normalisation for a new note, the choice
 * between the database and the in-memory fallback store, and the position
 * update of a stored note.
 *
 * The database itself is foreign: whether its connection is ready, and
 * whether a read, save or update on it succeeds, are inputs. The handlers'
 * HTTP answers are the `Reply` datatype.
 */
module NoteRoutes {
  import opened Json
  import opened Wrappers

  /** The longest note text the create handler keeps. */
  const MaxNoteLength := 100

  /** The `type` of a note: 'note' or 'present'. */
  datatype Kind = PlainNote | Present

  /** One entry of the fallback store: `{ _id, note, type, x, y }`. */
  datatype Note = Note(id: string, text: string, kind: Kind, x: int, y: int)

  /** The fields of a create request after normalisation. */
  datatype Draft = Draft(text: string, kind: Kind, x: int, y: int)

  /**
   * What the handlers answer; `fallback` is set when the memory store served
   * the request. `Threw` is a TypeError escaping the handler, which then
   * sends no answer of its own.
   */
  datatype Reply = BadRequest | NotFound | Created(fallback: bool) | Ok(fallback: bool) | Threw

  /** What a handler asked of the database, when it was ready. */
  datatype DbCall = Save(draft: Draft) | UpdatePosition(id: Value, x: int, y: int)

  /** Property of the parsed request body; a missing key reads as undefined. */
  function Field(body: map<string, Value>, key: string): Value {
    if key in body then body[key] else Undefined
  }

  /**
   * The text of a new note: the value converted to a string and cut to its
   * first 100 characters, or "" when the value is null or undefined. None
   * when the conversion throws.
   */
  function NoteText(v: Value): (text: Option<string>)
    ensures text.None? <==> HoldsOwnToString(v)
    ensures text.Some? ==> |text.value| <= MaxNoteLength
    ensures (v.Undefined? || v.Null?) ==> text == Some("")
    ensures !(v.Undefined? || v.Null?) && ToJsString(v).Some? ==>
      var s := ToJsString(v).value;
      text.Some? && text.value <= s && |text.value| == if |s| < MaxNoteLength then |s| else MaxNoteLength
  {
    ConversionThrowsIffOwnToString(v);
    if v.Undefined? || v.Null? then Some("")
    else match ToJsString(v)
      case None => None
      case Some(s) => Some(if |s| <= MaxNoteLength then s else s[..MaxNoteLength])
  }

  /** The kind of a new note: 'present' only for exactly that string. */
  function KindOf(v: Value): (k: Kind)
    ensures k == Present <==> v == Str("present")
  {
    if v == Str("present") then Present else PlainNote
  }

  /**
   * Normalisation of a create request. `drawX` and `drawY` stand for
   * `Math.floor(Math.random() * 400)` and `Math.floor(Math.random() * 300)`,
   * used only when the body's coordinate is not a number.
   */
  function Normalize(body: map<string, Value>, drawX: nat, drawY: nat): (d: Option<Draft>)
    requires drawX < 400 && drawY < 300
    ensures d.None? <==> HoldsOwnToString(Field(body, "note"))
    ensures d.Some? ==> |d.value.text| <= MaxNoteLength
    ensures d.Some? ==>
      (d.value.text == "" <==> Field(body, "note").Undefined? || Field(body, "note").Null? ||
                               ToJsString(Field(body, "note")) == Some(""))
    ensures !(Field(body, "note").Undefined? || Field(body, "note").Null?) &&
            ToJsString(Field(body, "note")).Some? ==>
              d.Some? && d.value.text <= ToJsString(Field(body, "note")).value
    ensures d.Some? ==> (d.value.kind == Present <==> Field(body, "type") == Str("present"))
    ensures d.Some? && Field(body, "x").Num? ==> d.value.x == Field(body, "x").n
    ensures d.Some? && !Field(body, "x").Num? ==> 50 <= d.value.x <= 449
    ensures d.Some? && Field(body, "y").Num? ==> d.value.y == Field(body, "y").n
    ensures d.Some? && !Field(body, "y").Num? ==> 50 <= d.value.y <= 349
  {
    var x := Field(body, "x");
    var y := Field(body, "y");
    match NoteText(Field(body, "note"))
    case None => None
    case Some(text) =>
      Some(Draft(text, KindOf(Field(body, "type")),
                 if x.Num? then x.n else drawX + 50,
                 if y.Num? then y.n else drawY + 50))
  }

  /** Index of the first note whose id is `key`, or -1: `findIndex`. */
  function FindIndex(notes: seq<Note>, key: string): (idx: int)
    ensures -1 <= idx < |notes|
    ensures idx == -1 <==> forall i :: 0 <= i < |notes| ==> notes[i].id != key
    ensures idx >= 0 ==> notes[idx].id == key && forall i :: 0 <= i < idx ==> notes[i].id != key
  {
    if |notes| == 0 then -1
    else if notes[0].id == key then 0
    else
      var rest := FindIndex(notes[1..], key);
      if rest == -1 then -1 else rest + 1
  }

  /** The store with the note at `idx` moved to (`x`, `y`). */
  function Moved(notes: seq<Note>, idx: nat, x: int, y: int): (moved: seq<Note>)
    requires idx < |notes|
    ensures |moved| == |notes|
    ensures forall i :: 0 <= i < |notes| && i != idx ==> moved[i] == notes[i]
    ensures moved[idx].x == x && moved[idx].y == y
    ensures moved[idx].id == notes[idx].id && moved[idx].text == notes[idx].text &&
            moved[idx].kind == notes[idx].kind
  {
    notes[idx := notes[idx].(x := x, y := y)]
  }

  /** Every id is non-empty and distinct, and every text holds 1 to 100 characters. */
  ghost predicate WellFormed(notes: seq<Note>) {
    && (forall i :: 0 <= i < |notes| ==> notes[i].id != "" && 1 <= |notes[i].text| <= MaxNoteLength)
    && (forall i, j :: 0 <= i < j < |notes| ==> notes[i].id != notes[j].id)
  }

  lemma MovedKeepsWellFormed(notes: seq<Note>, idx: nat, x: int, y: int)
    requires idx < |notes| && WellFormed(notes)
    ensures WellFormed(Moved(notes, idx, x, y))
  {

  }

  /** The process-wide fallback store, `memoryNotes`. */
  class NoteBoard {
    var notes: seq<Note>

    ghost predicate Valid()
      reads this
    {
      WellFormed(notes)
    }

    /** An id the store does not hold yet, as the id generator is taken to give. */
    predicate IsFreshId(id: string)
      reads this
    {
      id != "" && forall i :: 0 <= i < |notes| ==> notes[i].id != id
    }

    constructor ()
      ensures Valid() && notes == []
    {
      notes := [];
    }

    /**
     * GET /api/presents. `dbRead` is the outcome of the database read: None
     * when it failed.
     */
    method List(dbReady: bool, dbRead: Option<seq<Note>>) returns (shown: seq<Note>)
      ensures dbReady && dbRead.Some? ==> shown == dbRead.value
      ensures !dbReady || dbRead.None? ==> shown == notes
    {
      if dbReady && dbRead.Some? {
        return dbRead.value;
      }
      shown := notes;
    }

    /**
     * POST /api/presents. `dbSaveOk` is whether the database save succeeds;
     * `freshId` is what the id generator yields.
     */
    method Post(body: map<string, Value>, dbReady: bool, dbSaveOk: bool,
                drawX: nat, drawY: nat, freshId: string)
      returns (reply: Reply, dbCall: Option<DbCall>)
      requires Valid()
      requires drawX < 400 && drawY < 300
      requires IsFreshId(freshId)
      modifies this
      ensures Valid()
      ensures var nd := Normalize(body, drawX, drawY);
        if nd.None? then
          reply == Threw && dbCall == None && notes == old(notes)
        else
        var d := nd.value;
        if d.text == "" then
          reply == BadRequest && dbCall == None && notes == old(notes)
        else
          && dbCall == (if dbReady then Some(Save(d)) else None)
          && if dbReady && dbSaveOk then
               reply == Created(false) && notes == old(notes)
             else
               reply == Created(true) &&
               notes == old(notes) + [Note(freshId, d.text, d.kind, d.x, d.y)]
    {
      var nd := Normalize(body, drawX, drawY);
      if nd.None? {
        return Threw, None;
      }
      var d := nd.value;
      if d.text == "" {
        return BadRequest, None;
      }
      dbCall := None;
      if dbReady {
        dbCall := Some(Save(d));
        if dbSaveOk {
          return Created(false), dbCall;
        }
      }
      notes := notes + [Note(freshId, d.text, d.kind, d.x, d.y)];
      reply := Created(true);
    }

    /**
     * PATCH /api/presents/position. `dbUpdateOk` is whether the database
     * update succeeds.
     */
    method Patch(body: map<string, Value>, dbReady: bool, dbUpdateOk: bool)
      returns (reply: Reply, dbCall: Option<DbCall>)
      requires Valid()
      modifies this
      ensures Valid()
      ensures var id, x, y := Field(body, "id"), Field(body, "x"), Field(body, "y");
        if !Truthy(id) || !x.Num? || !y.Num? then
          reply == BadRequest && dbCall == None && notes == old(notes)
        else
          && dbCall == (if dbReady then Some(UpdatePosition(id, x.n, y.n)) else None)
          && if dbReady && dbUpdateOk then
               reply == Ok(false) && notes == old(notes)
             else match ToJsString(id)
               case None =>
                 reply == (if |old(notes)| == 0 then NotFound else Threw) && notes == old(notes)
               case Some(key) =>
               var idx := FindIndex(old(notes), key);
               if idx == -1 then reply == NotFound && notes == old(notes)
               else reply == Ok(true) && notes == Moved(old(notes), idx, x.n, y.n)
    {
      var id, x, y := Field(body, "id"), Field(body, "x"), Field(body, "y");
      if !Truthy(id) || !x.Num? || !y.Num? {
        return BadRequest, None;
      }
      dbCall := None;
      if dbReady {
        dbCall := Some(UpdatePosition(id, x.n, y.n));
        if dbUpdateOk {
          return Ok(false), dbCall;
        }
      }
      var key := ToJsString(id);
      if key.None? {
        // `String(id)` runs in the search callback, so only a non-empty store throws.
        return if |notes| == 0 then NotFound else Threw, dbCall;
      }
      var idx := FindIndex(notes, key.value);
      if idx == -1 {
        return NotFound, dbCall;
      }
      MovedKeepsWellFormed(notes, idx, x.n, y.n);
      notes := Moved(notes, idx, x.n, y.n);
      reply := Ok(true);
    }
  }
}
