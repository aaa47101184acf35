/** The link-state database shared by the offline simulator (lab3.py) and the
    Redis router (router.py): for every known router, the sequence number of
    its latest advertisement and the neighbour costs it advertised. */
module LinkStateDb {
  import opened Graphs

  /** `{'seq_num': seqNum, 'neighbors': neighbors}`; router.py's placeholders carry `seqNum == -1`. */
  datatype Entry = Entry(seqNum: int, neighbors: map<NodeId, nat>)

  type Db = map<NodeId, Entry>

  /** The test both files use before overwriting `db[source]`: the source is
      unknown, or the advertisement is strictly newer than the stored one. */
  predicate Accepts(db: Db, source: NodeId, seqNum: int) {
    source !in db || seqNum > db[source].seqNum
  }

  /** `build_network_graph`: the database projected to its neighbour maps. */
  function NetworkGraph(db: Db): (g: Graph)
    ensures g.Keys == db.Keys
    ensures forall n :: n in g ==> g[n] == db[n].neighbors
  {
    map n | n in db :: db[n].neighbors
  }

  /** Every entry of `db` survives into `db'` with a sequence number at least as high. */
  predicate Grows(db: Db, db': Db) {
    forall n :: n in db ==> n in db' && db[n].seqNum <= db'[n].seqNum
  }

  /** `Grows` is a preorder, so it chains across any run of handlers. */
  lemma GrowsTrans(db: Db, db': Db, db'': Db)
    requires Grows(db, db') && Grows(db', db'')
    ensures Grows(db, db'')
  {
  }

  /** An accepted advertisement never lowers the source's sequence number. */
  lemma AcceptGrows(db: Db, source: NodeId, e: Entry)
    requires Accepts(db, source, e.seqNum)
    ensures Grows(db, db[source := e])
  {
  }
}
