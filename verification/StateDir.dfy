/**
  The state directory: the queue files and the database file live here. Every
  change goes through one of the methods below, each of which is a single
  durable micro-step and is recorded in the ghost journal, so that the journal
  lists the disk's history and any prefix of it is a possible crash point.
 */
module StateDirectory {
  import opened Durable

  class StateDir {
    var files: map<Slot, File>
    var rows: map<Key, Row>
    ghost const origin: Disk
    ghost var journal: seq<Micro>

    ghost predicate Valid()
      reads this
    {
      State() == RunSteps(origin, journal)
    }

    function State(): Disk
      reads this
    {
      Disk(files, rows)
    }

    constructor (files: map<Slot, File>, rows: map<Key, Row>)
      ensures Valid()
      ensures State() == Disk(files, rows) && journal == []
    {
      this.files := files;
      this.rows := rows;
      origin := Disk(files, rows);
      journal := [];
    }

    /** One more micro-step keeps the journal faithful. */
    ghost method Record(m: Micro)
      requires State() == Apply(RunSteps(origin, journal), m)
      modifies this`journal
      ensures Valid()
      ensures journal == old(journal) + [m]
    {
      RunStepsConcat(origin, journal, [m]);
      assert [m][1..] == [];
      assert RunSteps(Apply(RunSteps(origin, journal), m), []) == Apply(RunSteps(origin, journal), m);
      journal := journal + [m];
    }

    method ListItemsSorted(dir: Dir) returns (ids: seq<Id>)
      ensures ids == Listing(State(), dir) && |ids| == |Ids(State(), dir)|
    {
      ids := Sort(Ids(State(), dir));
      SortedIsUnique(ids, Listing(State(), dir), Ids(State(), dir));
    }

    /** Temporary file, then replace: the item appears in `pending` in one step. */
    method AtomicWriteJson(item: Item, at: Time)
      requires Valid()
      modifies this
      ensures Valid()
      ensures journal == old(journal) + [Write(Pending, item, at)]
      ensures State() == Apply(old(State()), Write(Pending, item, at))
    {
      files := files[Slot(Pending, item.id) := Doc(item, at)];
      Record(Write(Pending, item, at));
    }

    /** Replaces the file of an item in the directory it is in. */
    method SaveItem(item: Item, dir: Dir, at: Time)
      requires Valid()
      modifies this
      ensures Valid()
      ensures journal == old(journal) + [Write(dir, item, at)]
      ensures State() == Apply(old(State()), Write(dir, item, at))
    {
      files := files[Slot(dir, item.id) := Doc(item, at)];
      Record(Write(dir, item, at));
    }

    /** Renames a file from one directory to another; a missing source changes nothing and is reported. */
    method AtomicMove(id: Id, from: Dir, to: Dir) returns (found: bool)
      requires Valid()
      modifies this
      ensures Valid()
      ensures found <==> Slot(from, id) in old(files)
      ensures journal == if found then old(journal) + [Move(id, from, to)] else old(journal)
      ensures State() == Apply(old(State()), Move(id, from, to))
    {
      found := Slot(from, id) in files;
      if found {
        files := MoveFile(files, id, from, to);
        Record(Move(id, from, to));
      }
    }

    method Remove(dir: Dir, id: Id)
      requires Valid()
      modifies this
      ensures Valid()
      ensures journal == old(journal) + [Unlink(dir, id)]
      ensures State() == Apply(old(State()), Unlink(dir, id))
    {
      files := files - {Slot(dir, id)};
      Record(Unlink(dir, id));
    }

    /** Commits one statement against the table. */
    method Commit(newRows: map<Key, Row>, ghost m: Micro)
      requires Valid()
      requires Disk(files, newRows) == Apply(State(), m)
      modifies this
      ensures Valid()
      ensures journal == old(journal) + [m]
      ensures State() == Apply(old(State()), m)
    {
      rows := newRows;
      Record(m);
    }
  }
}
