/** `modules/memory.py`: class `Memory`, a list of `{role, content}`
    records kept in the field `messages` and mirrored to
    `data/memory.json`. Every method that changes `messages` rewrites the
    file from it, so after each of them the file holds exactly `messages`. */
module Memory {
  import opened PyValues
  import opened Files

  const MemoryFile: Path := "data/memory.json"

  class Memory {
    var messages: seq<Json>
    const disk: Disk

    /** The mirror invariant: the file holds exactly `messages`. */
    ghost predicate Valid()
      reads this, disk
    {
      MemoryFile in disk.files && disk.files[MemoryFile] == Doc(messages)
    }

    /** `Memory()`: create the file as `[]` when it is absent, then load it.
        A file that does not hold a JSON list makes the load (or the first
        `add`) raise, which the model excludes. */
    constructor (disk: Disk)
      requires MemoryFile in disk.files ==> disk.files[MemoryFile].Doc?
      modifies disk
      ensures this.disk == disk && Valid()
      ensures MemoryFile !in old(disk.files) ==> messages == []
      ensures MemoryFile in old(disk.files) ==> messages == old(disk.files[MemoryFile].items)
      ensures disk.files == old(disk.files)[MemoryFile := Doc(messages)]
    {
      if MemoryFile !in disk.files {
        disk.files := disk.files[MemoryFile := Doc([])];
      }
      var loaded := Load(disk.files, MemoryFile);
      this.disk := disk;
      messages := loaded.value;
    }

    /** `add(role, content)`: append one record at the tail and rewrite the
        file. Earlier records are untouched. */
    method Add(role: Json, content: Json)
      modifies this, disk
      ensures Valid()
      ensures messages == old(messages) + [Message(role, content)]
      ensures disk.files == old(disk.files)[MemoryFile := Doc(messages)]
    {
      messages := messages + [Message(role, content)];
      disk.files := disk.files[MemoryFile := Doc(messages)];
    }

    /** `get()`: the messages, with nothing changed. */
    method Get() returns (ms: seq<Json>)
      ensures ms == messages
    {
      ms := messages;
    }

    /** `clear()`: empty the list and write `[]`. The state it leaves does
        not depend on the state it found, so a second call changes nothing. */
    method Clear()
      modifies this, disk
      ensures Valid()
      ensures messages == []
      ensures disk.files == old(disk.files)[MemoryFile := Doc([])]
    {
      messages := [];
      disk.files := disk.files[MemoryFile := Doc([])];
    }
  }

  /** How a run of `add` calls, starting from `messages`, leaves the list;
      `AddEach` below performs the calls and is proved to leave exactly
      this. */
  function AfterAdds(messages: seq<Json>, adds: seq<(Json, Json)>): (r: seq<Json>)
    decreases |adds|
  {
    if adds == [] then messages
    else AfterAdds(messages + [Message(adds[0].0, adds[0].1)], adds[1..])
  }

  /** A run of `add` calls keeps every earlier message where it was, and
      the new records follow in the order added. */
  lemma {:induction false} AddsKeepPrefix(messages: seq<Json>, adds: seq<(Json, Json)>)
    ensures |AfterAdds(messages, adds)| == |messages| + |adds|
    ensures AfterAdds(messages, adds)[..|messages|] == messages
    ensures forall i :: 0 <= i < |adds| ==>
      AfterAdds(messages, adds)[|messages| + i] == Message(adds[i].0, adds[i].1)
    decreases |adds|
  {
    if adds != [] {
      var next := messages + [Message(adds[0].0, adds[0].1)];
      AddsKeepPrefix(next, adds[1..]);
      var r := AfterAdds(messages, adds);
      assert r[..|messages|] == next[..|next|][..|messages|];
      forall i | 0 <= i < |adds|
        ensures r[|messages| + i] == Message(adds[i].0, adds[i].1)
      {
        if i > 0 {
          assert r[|next| + (i - 1)] == Message(adds[1..][i - 1].0, adds[1..][i - 1].1);
        }
      }
    }
  }

  /** `m.add(role, content)` for each pair of `adds`, in order. */
  method AddEach(m: Memory, adds: seq<(Json, Json)>)
    modifies m, m.disk
    ensures m.messages == AfterAdds(old(m.messages), adds)
    ensures adds != [] ==> m.Valid() && m.disk.files == old(m.disk.files)[MemoryFile := Doc(m.messages)]
    ensures adds == [] ==> m.disk.files == old(m.disk.files)
  {
    var i := 0;
    while i < |adds|
      invariant 0 <= i <= |adds|
      invariant AfterAdds(m.messages, adds[i..]) == AfterAdds(old(m.messages), adds)
      invariant i > 0 ==> m.Valid() && m.disk.files == old(m.disk.files)[MemoryFile := Doc(m.messages)]
      invariant i == 0 ==> m.disk.files == old(m.disk.files)
    {
      assert adds[i..][0] == adds[i] && adds[i..][1..] == adds[i + 1..];
      m.Add(adds[i].0, adds[i].1);
      i := i + 1;
    }
  }

  /** An example client run, not part of `memory.py`: a fresh memory over
      a disk without the file, two adds, a read and two clears. */
  method MemoryScenario(user: Json, reply: Json)
  {
    var disk := new Disk(map[]);
    var m := new Memory(disk);
    assert m.messages == [];
    m.Add(JStr("user"), user);
    m.Add(JStr("assistant"), reply);
    var got := m.Get();
    assert got == [Message(JStr("user"), user), Message(JStr("assistant"), reply)];
    assert disk.files[MemoryFile] == Doc(got);
    m.Clear();
    var once := disk.files;
    m.Clear();
    assert disk.files == once && m.messages == [];
  }
}
