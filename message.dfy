/**
 * A queue message: its id, payload, priority and redelivery flag, and the
 * queue it is bound to, to which `confirm` and `requeue` are handed.
 */
module QueueMessage {
  import opened Wrappers
  import opened PhpValues

  /** The state of a message as a queue sees it when the message is handed over. */
  datatype Fields = Fields(id: Value, data: Value, priority: Value, redelivery: Value)

  /** What a bound queue does when a message is confirmed or requeued; the queue itself is not part of this model. */
  datatype Queue = Queue(confirm: Fields -> Value, requeue: Fields -> Value)

  /** `BadMethodCallException` with its message. */
  datatype Error = BadMethodCall(message: string)

  const ContentType := "text/plain"

  /** The message text for an unbound `confirm` or `requeue`. */
  function Unbound(name: string): string {
    "No queue bound to call `" + name + "`."
  }

  /** The construction options and their defaults. */
  const Defaults: Options := map["id" := Null, "data" := Str(""), "priority" := Int(0), "redelivery" := Bool(false)]

  class Message {
    var id: Value
    var queue: Option<Queue>
    var data: Value
    var priority: Value
    var redelivery: Value
    /** Neither is in `_autoConfig`, so nothing ever sets them. */
    const timestamp: Value
    const expiration: Value

    /**
     * `config + defaults` and the base object's `init => true`; when `init`
     * is truthy, `_init` copies each key of `_autoConfig` whose value is set
     * (not null) to its field, and otherwise every field keeps its declared
     * default. `freshId` stands for the generated sha1 id, set through
     * `id()` before the options are applied; a bound queue is passed beside
     * the options and, like them, is only taken when `init` is truthy.
     */
    constructor(config: Options, queue: Option<Queue>, freshId: Value)
      ensures var c := Merge(Merge(config, Defaults), ObjectDefaults);
              var init := Truthy(Get(c, "init"));
              var generated := if Truthy(freshId) then freshId else Null;
              id == (if init && IsSet(Get(c, "id")) then Get(c, "id") else generated)
              && data == (if init && IsSet(Get(c, "data")) then Get(c, "data") else Str(""))
              && priority == (if init && IsSet(Get(c, "priority")) then Get(c, "priority") else Int(0))
              && redelivery == (if init && IsSet(Get(c, "redelivery")) then Get(c, "redelivery") else Bool(false))
              && this.queue == (if init then queue else None)
              && timestamp == Null && expiration == Null
    {
      var c := Merge(Merge(config, Defaults), ObjectDefaults);
      var init := Truthy(Get(c, "init"));
      id := if Truthy(freshId) then freshId else Null;
      data := if init && IsSet(Get(c, "data")) then Get(c, "data") else Str("");
      priority := if init && IsSet(Get(c, "priority")) then Get(c, "priority") else Int(0);
      redelivery := if init && IsSet(Get(c, "redelivery")) then Get(c, "redelivery") else Bool(false);
      this.queue := if init then queue else None;
      timestamp := Null;
      expiration := Null;
      new;
      if init && IsSet(Get(c, "id")) {
        id := Get(c, "id");
      }
    }

    /** What the bound queue is handed. */
    function Snapshot(): Fields
      reads this
    {
      Fields(id, data, priority, redelivery)
    }

    /** `id($x)`: set the id when `x` is truthy; the id after the call. */
    method Id(x: Value) returns (r: Value)
      modifies this
      ensures id == (if Truthy(x) then x else old(id)) && r == id
      ensures data == old(data) && priority == old(priority) && redelivery == old(redelivery) && queue == old(queue)
    {
      if Truthy(x) {
        id := x;
      }
      r := id;
    }

    /** `data($x)`: set the payload when `x` is truthy; the payload after the call. */
    method Data(x: Value) returns (r: Value)
      modifies this
      ensures data == (if Truthy(x) then x else old(data)) && r == data
      ensures id == old(id) && priority == old(priority) && redelivery == old(redelivery) && queue == old(queue)
    {
      if Truthy(x) {
        data := x;
      }
      r := data;
    }

    /** `contentType($type)`: always `text/plain`, whatever is passed. */
    function GetContentType(kind: Value): (r: string)
      ensures r == ContentType
    {
      ContentType
    }

    /** `priority()`. */
    function Priority(): Value
      reads this
    {
      priority
    }

    /** `isRedelivery()`. */
    function IsRedelivery(): Value
      reads this
    {
      redelivery
    }

    /** `confirm`: the bound queue's `confirm` of this message, or the unbound error. */
    function Confirm(): (r: Result<Value, Error>)
      reads this
      ensures queue.Some? <==> r.Success?
      ensures queue.Some? ==> r.value == queue.value.confirm(Snapshot())
      ensures queue.None? ==> r.error == BadMethodCall(Unbound("confirm"))
    {
      match queue
      case Some(q) => Success(q.confirm(Snapshot()))
      case None => Failure(BadMethodCall(Unbound("confirm")))
    }

    /** `requeue`: the bound queue's `requeue` of this message, or the unbound error. */
    function Requeue(): (r: Result<Value, Error>)
      reads this
      ensures queue.Some? <==> r.Success?
      ensures queue.Some? ==> r.value == queue.value.requeue(Snapshot())
      ensures queue.None? ==> r.error == BadMethodCall(Unbound("requeue"))
    {
      match queue
      case Some(q) => Success(q.requeue(Snapshot()))
      case None => Failure(BadMethodCall(Unbound("requeue")))
    }
  }

  /** A message built with no options has an empty payload, priority 0, no redelivery and no queue. */
  method DefaultMessage(freshId: Value) returns (m: Message)
    ensures fresh(m)
    ensures m.data == Str("") && m.priority == Int(0) && m.redelivery == Bool(false) && m.queue.None?
    ensures m.timestamp == Null && m.expiration == Null
  {
    assert Merge(map[], Defaults) == Defaults;
    m := new Message(map[], None, freshId);
  }

  /**
   * With `init => false` the base object skips `_init`: whatever the other
   * options say, the fields keep their declared defaults and the
   * generated id, and no queue is bound.
   */
  method UninitializedMessage(config: Options, queue: Option<Queue>, freshId: Value) returns (m: Message)
    requires Truthy(freshId)
    ensures fresh(m)
    ensures m.id == freshId && m.data == Str("") && m.priority == Int(0) && m.redelivery == Bool(false)
            && m.queue.None?
  {
    var settings := config["init" := Bool(false)];
    assert Get(Merge(Merge(settings, Defaults), ObjectDefaults), "init") == Bool(false);
    m := new Message(settings, queue, freshId);
  }

  /**
   * `priority()` and `isRedelivery()` report what the options set, and
   * their defaults 0 and `false` when an option is null.
   */
  method ConfiguredAccessors(priority: Value, redelivery: Value, freshId: Value) returns (m: Message)
    ensures fresh(m)
    ensures m.Priority() == (if IsSet(priority) then priority else Int(0))
    ensures m.IsRedelivery() == (if IsSet(redelivery) then redelivery else Bool(false))
  {
    var config := map["priority" := priority, "redelivery" := redelivery];
    var c := Merge(Merge(config, Defaults), ObjectDefaults);
    assert Get(c, "priority") == priority && Get(c, "redelivery") == redelivery && Get(c, "init") == Bool(true);
    m := new Message(config, None, freshId);
  }
}
