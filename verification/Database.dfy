/** The stock tables as the services' transactions see them: rows read and overwritten in place. */
module Database {
  import opened Stock

  class StockDb {
    var batches: seq<Batch>
    var log: seq<Movement>

    constructor ()
      ensures View() == EMPTY
    {
      batches, log := [], [];
    }

    function View(): Tables
      reads this
    {
      Tables(batches, log)
    }

    /** Takes stock out of a batch whose row was read as `row`, and logs the movement. */
    method TakeOut(id: BatchId, row: Batch, qty: int, cause: Cause)
      requires id < |batches| && batches[id] == row && 0 < qty
      modifies this
      ensures View() == Issue(old(View()), id, qty, cause)
    {
      batches := batches[id := row.(
        available := row.available - qty,
        status := if row.available - qty <= 0 then Consumed else row.status)];
      log := log + [Movement(cause, id, 0, qty)];
    }
  }
}
