/**
 The inventory service's command consumer: it runs the stock effect first, and then, in a second transaction, records the
 command as processed and appends the reply.
 */
module InventoryConsumer {
  import opened Results
  import opened OrderService
  import opened Inventory

  // A reply row, with the command (an outbox row of the order service) it answers.
  datatype InventoryReply = InventoryReply(command: nat, orderId: nat, tenantId: string, eventType: EventType, correlationId: string)

  datatype Replies = Replies(processed: set<nat>, outbox: seq<InventoryReply>)

  /** The stock effect of a command and the reply it calls for; a throwing handler gives no reply and changes nothing. */
  function RunEffect(shelf: Shelf, command: nat, row: Row): (Shelf, Option<InventoryReply>) {
    match row.message
    case ReserveStock(items) =>
      var (next, r) := Reserve(shelf, row.tenantId, row.orderId, items);
      (next,
       match r
       case Ok(granted) =>
         Some(InventoryReply(command, row.orderId, row.tenantId, if granted then StockReservedEvent else StockReservationFailed,
                             row.correlationId))
       case Err(_) => None)
    case ReleaseStock =>
      (Release(shelf, row.tenantId, row.orderId),
       Some(InventoryReply(command, row.orderId, row.tenantId, StockReleased, row.correlationId)))
    case _ => (shelf, None)
  }

  function RecordReply(r: Replies, reply: InventoryReply): Replies {
    if reply.command in r.processed then r else Replies(r.processed + {reply.command}, r.outbox + [reply])
  }

  /** One reply per command, however often it is delivered. */
  ghost predicate OneReplyEach(r: Replies) {
    && (forall c :: c in r.processed <==> Answered(r.outbox, c))
    && (forall i, j :: 0 <= i < j < |r.outbox| ==> r.outbox[i].command != r.outbox[j].command)
  }

  ghost predicate Answered(outbox: seq<InventoryReply>, command: nat) {
    exists i :: 0 <= i < |outbox| && outbox[i].command == command
  }

  lemma RecordingKeepsOneReplyEach(r: Replies, reply: InventoryReply)
    requires OneReplyEach(r)
    ensures OneReplyEach(RecordReply(r, reply))
  {
    if reply.command !in r.processed {
      var next := RecordReply(r, reply);
      assert next.outbox[|r.outbox|] == reply;
      assert forall i :: 0 <= i < |r.outbox| ==> next.outbox[i] == r.outbox[i];
      forall i | 0 <= i < |r.outbox| ensures r.outbox[i].command != reply.command {
        assert r.outbox[i].command == reply.command ==> Answered(r.outbox, reply.command);
      }
      forall c ensures c in next.processed <==> Answered(next.outbox, c) {
        if Answered(r.outbox, c) {
          var i :| 0 <= i < |r.outbox| && r.outbox[i].command == c;
          assert next.outbox[i].command == c;
        }
      }
    }
  }

  class CommandConsumer {
    const tables: InventoryTables
    var processed: set<nat>
    var outbox: seq<InventoryReply>

    constructor (tables: InventoryTables)
      ensures this.tables == tables && processed == {} && outbox == []
    {
      this.tables := tables;
      processed, outbox := {}, [];
    }

    /** One delivery of a command. */
    method HandleCommand(command: nat, row: Row)
      modifies this, tables
      ensures
        var effect := RunEffect(old(tables.Current()), command, row);
        && tables.Current() == effect.0
        && Replies(processed, outbox)
           == if effect.1.None? then old(Replies(processed, outbox)) else RecordReply(old(Replies(processed, outbox)), effect.1.value)
    {
      var eventType;
      match row.message {
        case ReserveStock(items) =>
          var r := tables.ReserveStock(row.tenantId, row.orderId, items);
          if r.Err? {
            return;
          }
          eventType := if r.value then StockReservedEvent else StockReservationFailed;
        case ReleaseStock =>
          tables.ReleaseStock(row.tenantId, row.orderId);
          eventType := StockReleased;
        case _ =>
          return;
      }
      var reply := InventoryReply(command, row.orderId, row.tenantId, eventType, row.correlationId);
      if command !in processed {
        processed := processed + {command};
        outbox := outbox + [reply];
      }
    }
  }
}
