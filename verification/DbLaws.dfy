/** What a fetch answers, whatever was done before: the data last stored under the key, unless it was
    deleted since. */
module DbLaws {
  import opened Commands
  import opened SimpleDb

  /** The operation gave the key its data, or took it away. */
  predicate Writes(op: Request, answer: Answer, key: string) {
    op.key == key && (op.Delete? || (op.Store? && answer == Code(0)))
  }

  ghost predicate Untouched(ops: seq<Request>, answers: seq<Answer>, key: string, lo: int, hi: int)
    requires 0 <= lo && hi <= |ops| && hi <= |answers|
  {
    forall j :: lo <= j < hi ==> !Writes(ops[j], answers[j], key)
  }

  lemma {:induction false} AnswerAt(m: map<string, string>, ops: seq<Request>, k: nat)
    requires k < |ops|
    ensures |MapAnswers(m, ops)| == |ops| && MapAnswers(m, ops)[k] == MapStep(MapAfter(m, ops[..k]), ops[k]).1
    decreases |ops|
  {
    var n := |ops| - 1;
    AnswersCount(m, ops[..n]);
    if k < n {
      AnswerAt(m, ops[..n], k);
      assert ops[..n][..k] == ops[..k];
    }
  }

  lemma {:induction false} AnswersCount(m: map<string, string>, ops: seq<Request>)
    ensures |MapAnswers(m, ops)| == |ops|
  {
    if ops != [] { AnswersCount(m, ops[..|ops| - 1]); }
  }

  lemma StepTouches(m: map<string, string>, op: Request, key: string)
    ensures var (after, answer) := MapStep(m, op);
            AnswersFor(m, op, answer, after)
            && if !Writes(op, answer, key) then key in after <==> key in m && (key in m ==> after[key] == m[key])
               else if op.Delete? then key !in after
               else op.Store? && key in after && after[key] == op.data
  {
  }

  function Lookup(m: map<string, string>, key: string): Option<string> {
    if key in m then Some(m[key]) else None
  }

  /** What the operation leaves at a key it writes. */
  function Written(op: Request): Option<string> {
    if op.Store? then Some(op.data) else None
  }

  lemma {:induction false} KeyStays(m: map<string, string>, ops: seq<Request>, key: string, lo: nat, hi: nat)
    requires lo <= hi <= |ops| && |MapAnswers(m, ops)| == |ops| && Untouched(ops, MapAnswers(m, ops), key, lo, hi)
    ensures Lookup(MapAfter(m, ops[..hi]), key) == Lookup(MapAfter(m, ops[..lo]), key)
    decreases hi
  {
    if lo < hi {
      KeyStays(m, ops, key, lo, hi - 1);
      AnswerAt(m, ops, hi - 1);
      StepTouches(MapAfter(m, ops[..hi - 1]), ops[hi - 1], key);
      assert ops[..hi][..hi - 1] == ops[..hi - 1];
    }
  }

  /** A fetch answers the data of the last store that went through, nothing if the key was deleted since,
      and what was there at first if nothing has touched it. */
  lemma FetchReturnsLast(m: map<string, string>, ops: seq<Request>, k: nat)
    requires k < |ops| && ops[k].Fetch?
    ensures |MapAnswers(m, ops)| == |ops|
    ensures var answers, key := MapAnswers(m, ops), ops[k].key;
            (Untouched(ops, answers, key, 0, k) ==> answers[k] == Data(Lookup(m, key)))
            && forall p :: 0 <= p < k && Writes(ops[p], answers[p], key) && Untouched(ops, answers, key, p + 1, k) ==>
                 answers[k] == Data(Written(ops[p]))
  {
    var answers, key := MapAnswers(m, ops), ops[k].key;
    AnswerAt(m, ops, k);
    if Untouched(ops, answers, key, 0, k) {
      KeyStays(m, ops, key, 0, k);
      assert ops[..0] == [];
    }
    forall p | 0 <= p < k && Writes(ops[p], answers[p], key) && Untouched(ops, answers, key, p + 1, k)
      ensures answers[k] == Data(Written(ops[p]))
    {
      AnswerAt(m, ops, p);
      StepTouches(MapAfter(m, ops[..p]), ops[p], key);
      assert ops[..p + 1][..p] == ops[..p];
      KeyStays(m, ops, key, p + 1, k);
    }
  }
}
