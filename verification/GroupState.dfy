/** Group state: the SET of pending member slots and the HASH of member results, both kept
    under the callback queue, each with a deadline of its own. Times are seconds. */
module GroupState {
  import opened Ids
  import opened Base

  /** The callback queue and the group ID. */
  type Key = (string, Id)

  /** The safety TTL of both keys. */
  const GROUP_TTL: int := 7 * 24 * 3600

  datatype Groups = Groups(
    pending: map<Key, set<Id>>, results: map<Key, map<nat, Bytes>>,
    setUntil: map<Key, int>, hashUntil: map<Key, int>, clock: int)

  const NO_GROUPS: Groups := Groups(map[], map[], map[], map[], 0)

  function ResultsOf(g: Groups, key: Key): map<nat, Bytes> {
    if key in g.results then g.results[key] else map[]
  }

  datatype ReportResult = ReportResult(groups: Groups, fires: bool, collected: seq<Bytes>)

  /** The results in member order, nil where nothing was recorded. */
  function Assemble(r: map<nat, Bytes>, size: nat): (s: seq<Bytes>)
    ensures |s| == size && forall i :: 0 <= i < size ==> s[i] == if i in r then r[i] else []
  {
    seq(size, i requires 0 <= i < size => if i in r then r[i] else [])
  }

  /** The completion script: remove the slot, record the result, refresh what is left, and
      when no slot is left drop the group state and say whether the callback is to be
      created, and with what. */
  function Report(g: Groups, key: Key, slot: Id, index: nat, size: nat, result: Bytes, callbackExists: bool): ReportResult {
    if key !in g.pending then ReportResult(g, false, [])
    else
      var left := g.pending[key] - {slot};
      var r := if result != [] then ResultsOf(g, key)[index := result] else ResultsOf(g, key);
      if left != {} then
        var h := g.(pending := g.pending[key := left], setUntil := g.setUntil[key := g.clock + GROUP_TTL]);
        ReportResult(if r == map[] then h else h.(results := g.results[key := r], hashUntil := g.hashUntil[key := g.clock + GROUP_TTL]),
                     false, [])
      else
        ReportResult(g.(pending := g.pending - {key}, results := g.results - {key}), !callbackExists,
                     if r != map[] && size > 0 then Assemble(r, size) else [])
  }

  datatype StageState = StageDone | StageExists | StageCreated

  /** What the stage script finds: a callback fences a completed stage, a SET one in flight. */
  function Probe(g: Groups, key: Key, callbackExists: bool): StageState {
    if callbackExists then StageDone else if key in g.pending then StageExists else StageCreated
  }

  /** The stage script: a SET in flight gets a new deadline, its HASH does not. */
  function CreateIfAbsent(g: Groups, key: Key, slots: set<Id>, callbackExists: bool): Groups {
    if callbackExists || slots == {} then g
    else if key in g.pending then g.(setUntil := g.setUntil[key := g.clock + GROUP_TTL])
    else g.(pending := g.pending[key := slots], results := g.results - {key}, setUntil := g.setUntil[key := g.clock + GROUP_TTL])
  }

  /** Registration of a standalone group, under a fresh ID. */
  function Create(g: Groups, key: Key, slots: set<Id>): Groups {
    if slots == {} then g
    else g.(pending := g.pending[key := slots + if key in g.pending then g.pending[key] else {}],
            setUntil := g.setUntil[key := g.clock + GROUP_TTL])
  }

  predicate Alive(until: map<Key, int>, key: Key, t: int) {
    key in until && t < until[key]
  }

  /** Time passes, and keys past their deadline are gone. */
  function Pass(g: Groups, t: int): Groups {
    g.(pending := map k | k in g.pending && Alive(g.setUntil, k, t) :: g.pending[k],
       results := map k | k in g.results && Alive(g.hashUntil, k, t) :: g.results[k],
       clock := t)
  }
}
