/**
 * The gradebook tables the services read and write, seen through the narrow
 * interface the source uses: grade items, the service's ownership records, grade
 * rows, the user table, the LTI instance -> tool proxy relation, and the calls the
 * source makes to gradelib's `grade_update`. Whether a write succeeds is the
 * store's answer and is passed in.
 */
module GradeStore {
  import opened PhpValues

  /** A row of the grade item table, and the object `grade_item::fetch` returns. */
  datatype Item = Item(
    id: int,
    courseid: int,
    itemname: Json,
    grademax: real,
    grademin: real,
    idnumber: Json,
    iteminstance: Option<int>,
    itemtype: string,
    itemmodule: string,
    itemnumber: Option<int>,
    // not a column of the grade item table: rows read with `SELECT i.*` leave it null
    lineitemtype: Json)

  /** A row of the service's own table: which tool proxy created which grade item. */
  datatype Owner = Owner(toolproxyid: int, lineitemtype: Json)

  /** A row of the grade table. */
  datatype Grade = Grade(
    itemid: int,
    userid: int,
    finalgrade: Option<real>,
    rawgrademax: real,
    feedback: Json,
    timemodified: Option<int>)

  datatype FeedbackFormat = FormatMoodle | FormatPlain

  /** The `$grade` record handed to `grade_update`. */
  datatype GradeUpdate =
    | Apply(userid: Json, rawgrademin: real, rawgrade: Option<real>, feedback: Json,
            feedbackformat: FeedbackFormat, timemodified: Option<int>)
      // rawgrade None: not set; timemodified None: `strtotime` answered false
    | Clear(userid: Json, rawgrade: Option<real>, feedback: Json, feedbackformat: FeedbackFormat)

  /** One call of `grade_update`, with the item coordinates it is scoped by. */
  datatype Submission = Submission(
    courseid: int,
    itemtype: string,
    itemmodule: string,
    iteminstance: Option<int>,
    itemnumber: Option<int>,
    grade: GradeUpdate)

  function SubmissionFor(item: Item, grade: GradeUpdate): Submission
  {
    Submission(item.courseid, item.itemtype, item.itemmodule, item.iteminstance, item.itemnumber, grade)
  }

  /** The whole store as a value. */
  datatype Db = Db(
    items: seq<Item>,
    owners: map<int, Owner>,
    grades: seq<Grade>,
    users: set<int>,
    ltiProxy: map<int, int>,   // LTI instance id -> tool proxy id of its type
    submitted: seq<Submission>,
    nextId: int)               // the grade item table's auto-increment counter

  predicate UniqueIds(items: seq<Item>)
  {
    forall i, j :: 0 <= i < j < |items| ==> items[i].id != items[j].id
  }

  /**
   * Ids are unique, stored items carry no line item type, and every id the item
   * table, the ownership table and the grade table mention was handed out
   * before the counter's current value.
   */
  predicate ValidDb(db: Db)
  {
    && UniqueIds(db.items)
    && (forall i :: 0 <= i < |db.items| ==> db.items[i].lineitemtype == JNull)
    && (forall i :: 0 <= i < |db.items| ==> db.items[i].id < db.nextId)
    && (forall k :: k in db.owners ==> k < db.nextId)
    && (forall i :: 0 <= i < |db.grades| ==> db.grades[i].itemid < db.nextId)
  }

  predicate HasItem(items: seq<Item>, id: int)
  {
    exists i :: 0 <= i < |items| && items[i].id == id
  }

  /**
   * The id the table assigns to a new row has never been used: no item, no
   * ownership row and no grade row names it, even after deletions.
   */
  lemma NextIdIsFresh(db: Db)
    requires ValidDb(db)
    ensures !HasItem(db.items, db.nextId)
    ensures db.nextId !in db.owners
    ensures forall g :: g in db.grades ==> g.itemid != db.nextId
  {
  }

  /** A value written to a text column, as the database returns it: null, or a string. */
  function TextColumn(v: Json): (r: Json)
    ensures r.JNull? || r.JStr?
    ensures v.JNull? || v.JStr? ==> r == v
    ensures v.JInt? ==> r == JStr(IntToString(v.i))
  {
    if v.JNull? then JNull else JStr(StrVal(v))
  }

  /**
   * The grade item as a later `grade_item::fetch` returns it after it was
   * written: the name and the id number come back as strings.
   */
  function Stored(item: Item): (r: Item)
    ensures r.itemname == TextColumn(item.itemname) && r.idnumber == TextColumn(item.idnumber)
    ensures r == item.(itemname := r.itemname, idnumber := r.idnumber)
  {
    item.(itemname := TextColumn(item.itemname), idnumber := TextColumn(item.idnumber))
  }

  /** The table after `$item->update()` wrote `item` over the row with its id. */
  function ReplaceItem(items: seq<Item>, item: Item): (r: seq<Item>)
    ensures |r| == |items|
    ensures forall i :: 0 <= i < |items| ==> r[i] == (if items[i].id == item.id then item else items[i])
  {
    if items == [] then []
    else [if items[0].id == item.id then item else items[0]] + ReplaceItem(items[1..], item)
  }

  /** The table after `$item->delete()` removed the rows with id `id`. */
  function RemoveItem(items: seq<Item>, id: int): (r: seq<Item>)
    ensures forall x :: x in r <==> x in items && x.id != id
    ensures |r| <= |items|
  {
    if items == [] then []
    else (if items[0].id != id then [items[0]] else []) + RemoveItem(items[1..], id)
  }

  /** Putting an item with an id of its own in front keeps ids unique. */
  lemma ConsKeepsUnique(h: Item, rest: seq<Item>)
    requires UniqueIds(rest)
    requires forall x :: x in rest ==> x.id != h.id
    ensures UniqueIds([h] + rest)
  {
    var r := [h] + rest;
    forall i, j | 0 <= i < j < |r|
      ensures r[i].id != r[j].id
    {
      assert r[j] == rest[j - 1];
      if i > 0 {
        assert r[i] == rest[i - 1];
      } else {
        assert rest[j - 1] in rest;
      }
    }
  }

  lemma {:induction false} RemoveItemKeepsUnique(items: seq<Item>, id: int)
    requires UniqueIds(items)
    ensures UniqueIds(RemoveItem(items, id))
  {
    if items != [] {
      var rest := RemoveItem(items[1..], id);
      RemoveItemKeepsUnique(items[1..], id);
      if items[0].id != id {
        forall x | x in rest
          ensures x.id != items[0].id
        {
          var k :| 0 <= k < |items[1..]| && items[1..][k] == x;
          assert items[k + 1] == x;
        }
        ConsKeepsUnique(items[0], rest);
      } else {
        assert RemoveItem(items, id) == rest;
      }
    }
  }

  lemma RemoveItemKeepsValid(db: Db, id: int)
    requires ValidDb(db)
    ensures ValidDb(db.(items := RemoveItem(db.items, id)))
  {
    RemoveItemKeepsUnique(db.items, id);
    var r := RemoveItem(db.items, id);
    forall i | 0 <= i < |r|
      ensures r[i].lineitemtype == JNull && r[i].id < db.nextId
    {
      assert r[i] in db.items;
    }
  }

  lemma ReplaceItemKeepsValid(db: Db, item: Item)
    requires ValidDb(db) && item.lineitemtype == JNull
    ensures ValidDb(db.(items := ReplaceItem(db.items, item)))
  {
    var r := ReplaceItem(db.items, item);
    assert forall i :: 0 <= i < |r| ==> r[i].id == db.items[i].id;
  }

  /** The grade row a `grade_grade::fetch` by item id and user id finds, both given as URL strings. */
  predicate GradeMatches(g: Grade, itemId: string, userId: string)
  {
    IntToString(g.itemid) == itemId && IntToString(g.userid) == userId
  }

  /** `grade_grade::fetch(array('itemid' => …, 'userid' => …))`: the first matching row, or none. */
  function FindGrade(grades: seq<Grade>, itemId: string, userId: string): (r: Option<Grade>)
    ensures r.Some? ==> r.value in grades && GradeMatches(r.value, itemId, userId)
    ensures r.None? <==> forall g :: g in grades ==> !GradeMatches(g, itemId, userId)
  {
    if grades == [] then None
    else if GradeMatches(grades[0], itemId, userId) then Some(grades[0])
    else FindGrade(grades[1..], itemId, userId)
  }

  /** `grade_grade::fetch_all(array('itemid' => …))`: the item's rows in table order. */
  function GradesOf(grades: seq<Grade>, itemid: int): (r: seq<Grade>)
    ensures forall g :: g in r <==> g in grades && g.itemid == itemid
    ensures |r| <= |grades|
  {
    if grades == [] then []
    else (if grades[0].itemid == itemid then [grades[0]] else []) + GradesOf(grades[1..], itemid)
  }

  /** The gradebook as the services see it, updated in place by their writes. */
  class Gradebook {
    var items: seq<Item>
    var owners: map<int, Owner>
    var grades: seq<Grade>
    var users: set<int>
    var ltiProxy: map<int, int>
    var submitted: seq<Submission>
    var nextId: int

    function Snapshot(): Db
      reads this
    {
      Db(items, owners, grades, users, ltiProxy, submitted, nextId)
    }

    ghost predicate Valid()
      reads this
    {
      ValidDb(Snapshot())
    }

    constructor (db: Db)
      requires ValidDb(db)
      ensures Valid() && Snapshot() == db
    {
      items, owners, grades, users, ltiProxy, submitted, nextId :=
        db.items, db.owners, db.grades, db.users, db.ltiProxy, db.submitted, db.nextId;
    }

    /** `$item->update(...)`; `ok` is the table's answer. */
    method UpdateItem(item: Item, ok: bool) returns (updated: bool)
      requires Valid() && item.lineitemtype == JNull
      modifies this
      ensures Valid() && updated == ok
      ensures Snapshot() == old(Snapshot()).(items := if ok then ReplaceItem(old(items), item) else old(items))
    {
      ReplaceItemKeepsValid(Snapshot(), item);
      if ok {
        items := ReplaceItem(items, item);
      }
      updated := ok;
    }

    /** `$gradeitem->delete(...)`; the ownership row is left in place, as the source leaves it. */
    method DeleteItem(id: int, ok: bool) returns (deleted: bool)
      requires Valid()
      modifies this
      ensures Valid() && deleted == ok
      ensures Snapshot() == old(Snapshot()).(items := if ok then RemoveItem(old(items), id) else old(items))
    {
      if ok {
        RemoveItemKeepsValid(Snapshot(), id);
        items := RemoveItem(items, id);
      }
      deleted := ok;
    }

    /**
     * `$item->insert(...)`: appends the row under the next auto-increment id,
     * advances the counter and returns that id.
     */
    method InsertItem(item: Item) returns (id: int)
      requires Valid() && item.lineitemtype == JNull
      modifies this
      ensures Valid()
      ensures id == old(nextId)
      ensures Snapshot() == old(Snapshot()).(items := old(items) + [item.(id := id)], nextId := id + 1)
    {
      id := nextId;
      items := items + [item.(id := id)];
      nextId := nextId + 1;
    }

    /** `$DB->insert_record('ltiservice_gradebookservices', ...)`; `ok` is false when it throws. */
    method InsertOwner(itemid: int, owner: Owner, ok: bool) returns (inserted: bool)
      requires Valid() && itemid < nextId
      modifies this
      ensures Valid() && inserted == ok
      ensures Snapshot() == old(Snapshot()).(owners := if ok then old(owners)[itemid := owner] else old(owners))
    {
      if ok {
        owners := owners[itemid := owner];
      }
      inserted := ok;
    }

    /** A call of `grade_update`; `ok` says whether it answered GRADE_UPDATE_OK. */
    method SubmitGrade(s: Submission, ok: bool) returns (status: bool)
      requires Valid()
      modifies this
      ensures Valid() && status == ok
      ensures Snapshot() == old(Snapshot()).(submitted := old(submitted) + [s])
    {
      submitted := submitted + [s];
      status := ok;
    }
  }
}
