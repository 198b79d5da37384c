/**
 * The in-memory queue adapter the registry tests run against: tasks are
 * appended by `add` and taken from the front by `run`.
 */
module MockQueue {
  import opened PhpValues

  /** One queued entry: the task and the options it was added with. */
  datatype Entry = Entry(task: Value, options: Options)

  /** What `run` returns: the string `'Success'`, or `false` when nothing is queued. */
  datatype Outcome = Success | False

  class Queue {
    /** `_queue`, front first. */
    var entries: seq<Entry>

    constructor()
      ensures entries == []
    {
      entries := [];
    }

    /** `add`: the entry goes to the back; always true. */
    method Add(task: Value, options: Options) returns (r: bool)
      modifies this
      ensures r && entries == old(entries) + [Entry(task, options)]
    {
      entries := entries + [Entry(task, options)];
      r := true;
    }

    /** `run`: remove the front entry and succeed, or fail and change nothing when empty. */
    method Run() returns (r: Outcome)
      modifies this
      ensures old(entries) == [] ==> r == False && entries == []
      ensures old(entries) != [] ==> r == Success && entries == old(entries)[1..]
    {
      if entries != [] {
        entries := entries[1..];
        return Success;
      }
      return False;
    }

    /** `reset`: empty the queue. */
    method Reset()
      modifies this
      ensures entries == []
    {
      entries := [];
    }
  }

  /** One `add`, then `run` succeeds and a second `run` fails. */
  method OneTaskScenario(task: Value) returns (first: Outcome, second: Outcome)
    ensures first == Success && second == False
  {
    var q := new Queue();
    var _ := q.Add(task, map[]);
    first := q.Run();
    second := q.Run();
  }
}
