/** The MongoDB driver as the data-access layer sees it: a connected client
    whose collection operations are foreign code. The client keeps the
    transcript of every operation it was asked to perform together with the
    reply it gave; what the store replies is an arbitrary function of the
    transcript so far and of the request, so whatever is proved of a caller
    holds for every store behaviour. */
module Mongo {
  import opened Wrappers
  import opened Api
  import opened Bson

  /** A database name and a collection name. */
  datatype Namespace = Namespace(database: string, collection: string)

  /** One driver operation and its outcome. */
  datatype Exchange =
    | InsertManyCall(ns: Namespace, documents: seq<MapDoc>, inserted: Result<seq<Val>, string>)
    | UpdateOneCall(ns: Namespace, filter: Doc, update: Doc, modified: Result<nat, string>)
    | FindCall(ns: Namespace, filter: Doc, found: Result<seq<Coupon>, string>)

  class Client {
    /** Every operation performed through this client, oldest first. */
    var log: seq<Exchange>

    /** `InsertMany` replies with the inserted identifiers. */
    const insertMany: (seq<Exchange>, Namespace, seq<MapDoc>) -> Result<seq<Val>, string>
    /** `UpdateOne` replies with the `ModifiedCount` of its result. */
    const updateOne: (seq<Exchange>, Namespace, Doc, Doc) -> Result<nat, string>
    /** `Find` followed by iterating and decoding the cursor replies with the
        decoded records; any of those steps may fail. */
    const find: (seq<Exchange>, Namespace, Doc) -> Result<seq<Coupon>, string>

    constructor (
      insertMany: (seq<Exchange>, Namespace, seq<MapDoc>) -> Result<seq<Val>, string>,
      updateOne: (seq<Exchange>, Namespace, Doc, Doc) -> Result<nat, string>,
      find: (seq<Exchange>, Namespace, Doc) -> Result<seq<Coupon>, string>)
      ensures Valid() && log == []
      ensures this.insertMany == insertMany && this.updateOne == updateOne && this.find == find
    {
      this.insertMany := insertMany;
      this.updateOne := updateOne;
      this.find := find;
      log := [];
    }

    /** The outcome recorded in `e` is what the store gives after history `h`. */
    predicate Answered(h: seq<Exchange>, e: Exchange) {
      match e
      case InsertManyCall(ns, docs, r) => r == insertMany(h, ns, docs)
      case UpdateOneCall(ns, filter, update, r) => r == updateOne(h, ns, filter, update)
      case FindCall(ns, filter, r) => r == find(h, ns, filter)
    }

    /** Every outcome recorded in `h` is the store's answer after the
        exchanges before it. */
    ghost predicate Consistent(h: seq<Exchange>)
      decreases |h|
    {
      h == [] || (Consistent(h[..|h| - 1]) && Answered(h[..|h| - 1], h[|h| - 1]))
    }

    /** `Consistent` says exactly that each exchange was answered by the
        store given the history before it. */
    lemma {:induction false} ConsistentMeans(h: seq<Exchange>)
      ensures Consistent(h) <==> forall i | 0 <= i < |h| :: Answered(h[..i], h[i])
      decreases |h|
    {
      if h != [] {
        var p := h[..|h| - 1];
        ConsistentMeans(p);
        assert forall i | 0 <= i < |p| :: p[..i] == h[..i] && p[i] == h[i];
      }
    }

    /** The transcript is one the store could have produced. */
    ghost predicate Valid()
      reads this
    {
      Consistent(log)
    }

    method InsertMany(ns: Namespace, documents: seq<MapDoc>) returns (r: Result<seq<Val>, string>)
      requires Valid()
      modifies this
      ensures Valid()
      ensures r == insertMany(old(log), ns, documents)
      ensures log == old(log) + [InsertManyCall(ns, documents, r)]
    {
      r := insertMany(log, ns, documents);
      Record(InsertManyCall(ns, documents, r));
    }

    method UpdateOne(ns: Namespace, filter: Doc, update: Doc) returns (r: Result<nat, string>)
      requires Valid()
      modifies this
      ensures Valid()
      ensures r == updateOne(old(log), ns, filter, update)
      ensures log == old(log) + [UpdateOneCall(ns, filter, update, r)]
    {
      r := updateOne(log, ns, filter, update);
      Record(UpdateOneCall(ns, filter, update, r));
    }

    method Find(ns: Namespace, filter: Doc) returns (r: Result<seq<Coupon>, string>)
      requires Valid()
      modifies this
      ensures Valid()
      ensures r == find(old(log), ns, filter)
      ensures log == old(log) + [FindCall(ns, filter, r)]
    {
      r := find(log, ns, filter);
      Record(FindCall(ns, filter, r));
    }

    method Record(e: Exchange)
      requires Valid() && Answered(log, e)
      modifies this
      ensures Valid() && log == old(log) + [e]
    {
      log := log + [e];
      assert log[..|log| - 1] == old(log);
    }
  }
}
