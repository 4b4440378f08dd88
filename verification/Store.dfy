/**
 * The tables of threads, messages and costs. The rows refine a map from a
 * thread to its list of messages.
 */
module Store {
  import opened Common
  import opened Protocol
  import opened Text
  import opened Money

  /** The primary key of a message row. */
  datatype Key = Key(thread: string, seqNo: nat)

  datatype StoreError = EmptyId | UniqueViolation | ForeignKeyViolation

  datatype CostRow = CostRow(thread: string, cost: Cost)

  // ----- The rows against the map -----

  /** Every thread's rows are numbered 0, 1, ... without a gap, and hold its messages in order. */
  ghost predicate Refines(threads: set<string>, rows: map<Key, Message>, model: map<string, seq<Message>>) {
    && model.Keys == threads
    && (forall k :: k in rows <==> k.thread in model && k.seqNo < |model[k.thread]|)
    && (forall k :: k in rows ==> rows[k] == model[k.thread][k.seqNo])
  }

  ghost predicate RowsHaveThreads(threads: set<string>, costs: seq<CostRow>) {
    forall i :: 0 <= i < |costs| ==> costs[i].thread in threads
  }

  /** The rows determine the map: nothing but the tables decides what a thread says. */
  lemma RowsDecideMessages(threads: set<string>, rows: map<Key, Message>, a: map<string, seq<Message>>, b: map<string, seq<Message>>)
    requires Refines(threads, rows, a) && Refines(threads, rows, b)
    ensures a == b
  {
    forall id | id in threads ensures a[id] == b[id] {
      SameLength(threads, rows, a, b, id);
      SameLength(threads, rows, b, a, id);
      forall n | 0 <= n < |a[id]| ensures a[id][n] == b[id][n] {
        assert Key(id, n) in rows;
      }
    }
  }

  lemma SameLength(threads: set<string>, rows: map<Key, Message>, a: map<string, seq<Message>>, b: map<string, seq<Message>>, id: string)
    requires Refines(threads, rows, a) && Refines(threads, rows, b) && id in threads
    ensures |a[id]| <= |b[id]|
  {
    if |a[id]| > 0 {
      assert Key(id, |a[id]| - 1) in rows;
    }
  }

  // ----- Costs -----

  function CostsOf(rows: seq<CostRow>, id: string): seq<CostRow> {
    if rows == [] then []
    else if rows[0].thread == id then [rows[0]] + CostsOf(rows[1..], id)
    else CostsOf(rows[1..], id)
  }

  function CostsWithout(rows: seq<CostRow>, id: string): seq<CostRow> {
    if rows == [] then []
    else if rows[0].thread == id then CostsWithout(rows[1..], id)
    else [rows[0]] + CostsWithout(rows[1..], id)
  }

  function SumOf(rows: seq<CostRow>): Cost {
    if rows == [] then ZERO_COST else AddCost(rows[0].cost, SumOf(rows[1..]))
  }

  lemma AddCostLaws(a: Cost, b: Cost, c: Cost)
    ensures AddCost(AddCost(a, b), c) == AddCost(a, AddCost(b, c))
    ensures AddCost(a, b) == AddCost(b, a)
    ensures AddCost(a, ZERO_COST) == a == AddCost(ZERO_COST, a)
  {
  }

  lemma AddCostSwap(a: Cost, b: Cost, c: Cost)
    ensures AddCost(a, AddCost(b, c)) == AddCost(b, AddCost(a, c))
  {
  }

  lemma SumCons(row: CostRow, rows: seq<CostRow>)
    ensures SumOf([row] + rows) == AddCost(row.cost, SumOf(rows))
  {
    assert ([row] + rows)[1..] == rows;
  }

  lemma CostsOfCons(row: CostRow, rest: seq<CostRow>, id: string)
    ensures CostsOf([row] + rest, id) == if row.thread == id then [row] + CostsOf(rest, id) else CostsOf(rest, id)
  {
    assert ([row] + rest)[1..] == rest;
  }

  lemma CostsWithoutCons(row: CostRow, rest: seq<CostRow>, id: string)
    ensures CostsWithout([row] + rest, id) == if row.thread == id then CostsWithout(rest, id) else [row] + CostsWithout(rest, id)
  {
    assert ([row] + rest)[1..] == rest;
  }

  /** A sum of rows is the sum of its parts, and that of a single row is its cost. */
  lemma {:induction false} SumOfParts(a: seq<CostRow>, b: seq<CostRow>)
    ensures SumOf(a + b) == AddCost(SumOf(a), SumOf(b))
    ensures |a| == 1 ==> SumOf(a) == a[0].cost
  {
    if a == [] {
      assert a + b == b;
      AddCostLaws(SumOf(b), ZERO_COST, ZERO_COST);
    } else {
      assert (a + b)[1..] == a[1..] + b;
      SumOfParts(a[1..], b);
      AddCostLaws(a[0].cost, SumOf(a[1..]), SumOf(b));
    }
  }

  /** Deleting a thread takes exactly its own spend off the total. */
  lemma {:induction false} DeletionTakesItsOwnSpend(rows: seq<CostRow>, id: string)
    ensures SumOf(rows) == AddCost(SumOf(CostsOf(rows, id)), SumOf(CostsWithout(rows, id)))
  {
    if rows == [] {
      AddCostLaws(ZERO_COST, ZERO_COST, ZERO_COST);
    } else {
      var row, own, others := rows[0], CostsOf(rows[1..], id), CostsWithout(rows[1..], id);
      DeletionTakesItsOwnSpend(rows[1..], id);
      if row.thread == id {
        SumCons(row, own);
        AddCostLaws(row.cost, SumOf(own), SumOf(others));
      } else {
        SumCons(row, others);
        AddCostSwap(row.cost, SumOf(own), SumOf(others));
      }
    }
  }

  /** No other thread's spend changes, and the deleted one has none left. */
  lemma {:induction false} DeletionSparesOthers(rows: seq<CostRow>, id: string, other: string)
    ensures CostsOf(CostsWithout(rows, id), other) == if other == id then [] else CostsOf(rows, other)
  {
    if rows != [] {
      var row, rest := rows[0], rows[1..];
      assert rows == [row] + rest;
      DeletionSparesOthers(rest, id, other);
      CostsOfCons(row, rest, other);
      CostsWithoutCons(row, rest, id);
      CostsOfCons(row, CostsWithout(rest, id), other);
    }
  }

  lemma {:induction false} WithoutKeepsThreads(rows: seq<CostRow>, threads: set<string>, id: string)
    requires RowsHaveThreads(threads, rows)
    ensures RowsHaveThreads(threads - {id}, CostsWithout(rows, id))
  {
    if rows != [] {
      assert RowsHaveThreads(threads, rows[1..]);
      WithoutKeepsThreads(rows[1..], threads, id);
    }
  }

  lemma {:induction false} CostsOfSnoc(rows: seq<CostRow>, row: CostRow, id: string)
    ensures CostsOf(rows + [row], id) == CostsOf(rows, id) + if row.thread == id then [row] else []
  {
    if rows == [] {
      assert rows + [row] == [row];
    } else {
      assert (rows + [row])[1..] == rows[1..] + [row];
      CostsOfSnoc(rows[1..], row, id);
    }
  }

  lemma {:induction false} CostsWithoutSnoc(rows: seq<CostRow>, row: CostRow, id: string)
    ensures CostsWithout(rows + [row], id) == CostsWithout(rows, id) + if row.thread == id then [] else [row]
  {
    if rows == [] {
      assert rows + [row] == [row];
    } else {
      assert (rows + [row])[1..] == rows[1..] + [row];
      CostsWithoutSnoc(rows[1..], row, id);
    }
  }

  // ----- Sequence numbers -----

  ghost predicate IsLeast(n: nat, s: set<nat>) { n in s && forall m :: m in s ==> n <= m }

  /** `ORDER BY seq`: the least of the sequence numbers left. */
  method TakeLeast(s: set<nat>) returns (n: nat)
    requires s != {}
    ensures IsLeast(n, s)
  {
    n :| n in s;
    var left := s - {n};
    while left != {}
      invariant n in s && left <= s && forall m :: m in s ==> m in left || n <= m
      decreases |left|
    {
      var m :| m in left;
      n, left := Min(n, m), left - {m};
    }
  }

  /** The table with a thread's next rows in it. */
  function WithRows(rows: map<Key, Message>, id: string, next: nat, messages: seq<Message>): map<Key, Message> {
    if messages == [] then rows
    else
      var n := |messages| - 1;
      WithRows(rows, id, next, messages[..n])[Key(id, next + n) := messages[n]]
  }

  lemma RefinesOneMore(threads: set<string>, rows: map<Key, Message>, model: map<string, seq<Message>>, id: string, m: Message)
    requires Refines(threads, rows, model) && id in model
    ensures Refines(threads, rows[Key(id, |model[id]|) := m], model[id := model[id] + [m]])
  {
    assert model[id := model[id] + [m]].Keys == model.Keys;
  }

  lemma UpdateTwice<K, V>(m: map<K, V>, k: K, v: V, w: V)
    ensures m[k := v][k := w] == m[k := w]
  {
  }

  /** Numbering on from the last row appends to the thread's list. */
  lemma {:induction false} RowsOfAppend(threads: set<string>, rows: map<Key, Message>, model: map<string, seq<Message>>, id: string,
      messages: seq<Message>)
    requires Refines(threads, rows, model) && id in model
    ensures Refines(threads, WithRows(rows, id, |model[id]|, messages), model[id := model[id] + messages])
  {
    if messages == [] {
      assert model[id] + messages == model[id];
    } else {
      var n := |messages| - 1;
      RowsOfAppend(threads, rows, model, id, messages[..n]);
      var before := model[id := model[id] + messages[..n]];
      RefinesOneMore(threads, WithRows(rows, id, |model[id]|, messages[..n]), before, id, messages[n]);
      assert before[id] + [messages[n]] == model[id] + messages;
      UpdateTwice(model, id, before[id], model[id] + messages);
    }
  }

  lemma NextKeyIsFree(threads: set<string>, rows: map<Key, Message>, model: map<string, seq<Message>>, id: string,
      messages: seq<Message>)
    requires Refines(threads, rows, model) && id in model
    ensures Key(id, |model[id]| + |messages|) !in WithRows(rows, id, |model[id]|, messages)
  {
    RowsOfAppend(threads, rows, model, id, messages);
  }

  // ----- The store -----

  class Store {
    var threads: set<string>
    var rows: map<Key, Message>
    var costs: seq<CostRow>
    /** What the rows mean. */
    ghost var model: map<string, seq<Message>>

    ghost predicate Valid()
      reads this
    {
      Refines(threads, rows, model) && RowsHaveThreads(threads, costs)
    }

    constructor ()
      ensures Valid() && model == map[] && costs == []
    {
      threads, rows, costs, model := {}, map[], [], map[];
    }

    /** `uuid` is the identifier made up when none is given. */
    method CreateThread(wanted: Option<string>, uuid: string) returns (r: Result<string, StoreError>)
      requires Valid()
      modifies this
      ensures Valid() && costs == old(costs)
      ensures var id := if wanted.Some? then wanted.value else uuid;
              && (r.Ok? <==> !(wanted.Some? && Trim(id) == "") && id !in old(model))
              && (r.Ok? ==> r.value == id && model == old(model)[id := []])
              && (r.Err? ==> model == old(model))
    {
      if wanted.Some? && Trim(wanted.value) == "" {
        return Err(EmptyId);
      }
      var id := if wanted.Some? then wanted.value else uuid;
      if id in threads {
        return Err(UniqueViolation);
      }
      threads := threads + {id};
      model := model[id := []];
      r := Ok(id);
    }

    /** Whether the thread row is there. */
    method HasThread(id: string) returns (found: bool)
      requires Valid()
      ensures found <==> id in model
    {
      found := id in threads;
    }

    /** Rows that reference the thread go with it. */
    method DeleteThread(id: string)
      requires Valid()
      modifies this
      ensures Valid()
      ensures model == old(model) - {id}
      ensures costs == CostsWithout(old(costs), id)
      ensures forall k :: k in rows <==> k in old(rows) && k.thread != id
      ensures forall k :: k in rows ==> rows[k] == old(rows)[k]
    {
      threads := threads - {id};
      rows := map k | k in rows && k.thread != id :: rows[k];
      model := model - {id};
      WithoutKeepsThreads(costs, old(threads), id);
      costs := DropCosts(costs, id);
    }

    static method DropCosts(all: seq<CostRow>, id: string) returns (kept: seq<CostRow>)
      ensures kept == CostsWithout(all, id)
    {
      kept := [];
      for i := 0 to |all|
        invariant kept == CostsWithout(all[..i], id)
      {
        assert all[..i + 1] == all[..i] + [all[i]];
        CostsWithoutSnoc(all[..i], all[i], id);
        if all[i].thread != id {
          kept := kept + [all[i]];
        }
      }
      assert all[..|all|] == all;
    }

    static function SeqNosOf(rows: map<Key, Message>, id: string): set<nat> {
      set k | k in rows && k.thread == id :: k.seqNo
    }

    /** `COALESCE(MAX(seq), -1) + 1`. */
    method NextSeq(id: string) returns (next: nat)
      requires Valid()
      ensures next == if id in model then |model[id]| else 0
    {
      var left: set<nat> := SeqNosOf(rows, id);
      ghost var n := if id in model then |model[id]| else 0;
      SeqNosAreARange(id);
      next := 0;
      while left != {}
        invariant forall k :: k in left ==> k < n
        invariant next <= n
        invariant n > 0 ==> n - 1 in left || n - 1 < next
        decreases |left|
      {
        var k := TakeLeast(left);
        next := Max(next, k + 1);
        left := left - {k};
      }
      assert n > 0 ==> n - 1 !in left;
    }

    static lemma SeqNoHasRow(rows: map<Key, Message>, id: string, n: nat)
      ensures n in SeqNosOf(rows, id) <==> Key(id, n) in rows
    {
      if Key(id, n) in rows {
        assert Key(id, n).seqNo in SeqNosOf(rows, id);
      }
      if n in SeqNosOf(rows, id) {
        var k :| k in rows && k.thread == id && k.seqNo == n;
        assert k == Key(id, n);
      }
    }

    lemma SeqNosAreARange(id: string)
      requires Valid()
      ensures forall n: nat :: n in SeqNosOf(rows, id) <==> id in model && n < |model[id]|
    {
      forall n: nat ensures n in SeqNosOf(rows, id) <==> id in model && n < |model[id]| {
        SeqNoHasRow(rows, id, n);
        assert Key(id, n) in rows <==> id in model && n < |model[id]|;
      }
    }

    /** One transaction: all the messages go in, or none does. */
    method AppendMessages(id: string, messages: seq<Message>) returns (r: Result<(), StoreError>)
      requires Valid()
      modifies this
      ensures Valid() && threads == old(threads) && costs == old(costs)
      ensures r.Ok? <==> messages == [] || id in old(model)
      ensures id in old(model) ==> model == old(model)[id := old(model)[id] + messages]
      ensures id !in old(model) ==> model == old(model) && rows == old(rows)
    {
      if messages == [] {
        assert id in model ==> model[id] + messages == model[id];
        return Ok(());
      }
      var next := NextSeq(id);
      var begin := rows;
      for i := 0 to |messages|
        invariant rows == WithRows(begin, id, next, messages[..i])
        invariant i > 0 ==> id in threads
        invariant threads == old(threads) && costs == old(costs) && model == old(model)
      {
        if id in threads { NextKeyIsFree(threads, begin, model, id, messages[..i]); }
        var key := Key(id, next + i);
        if id !in threads || key in rows {
          rows := begin;
          return Err(if id !in threads then ForeignKeyViolation else UniqueViolation);
        }
        rows := rows[key := messages[i]];
        assert messages[..i + 1][..i] == messages[..i];
      }
      assert messages[..|messages|] == messages;
      RowsOfAppend(threads, begin, model, id, messages);
      model := model[id := model[id] + messages];
      r := Ok(());
    }

    /** The rows of the thread by sequence number. */
    method LoadMessages(id: string) returns (messages: seq<Message>)
      requires Valid()
      ensures messages == if id in model then model[id] else []
    {
      var left: set<nat> := SeqNosOf(rows, id);
      SeqNosAreARange(id);
      messages := [];
      while left != {}
        invariant forall n: nat :: n in left <==> id in model && |messages| <= n < |model[id]|
        invariant id in model ==> messages <= model[id]
        invariant id !in model ==> messages == []
        decreases |left|
      {
        var n := TakeLeast(left);
        assert |messages| in left;
        assert Key(id, n) in rows;
        messages := messages + [rows[Key(id, n)]];
        left := left - {n};
      }
      assert id in model ==> |messages| in left || |messages| == |model[id]|;
    }

    method RecordCost(id: string, cost: Cost) returns (r: Result<(), StoreError>)
      requires Valid()
      modifies this`costs
      ensures Valid() && (r.Ok? <==> id in model)
      ensures costs == if r.Ok? then old(costs) + [CostRow(id, cost)] else old(costs)
    {
      if id !in threads {
        return Err(ForeignKeyViolation);
      }
      costs := costs + [CostRow(id, cost)];
      r := Ok(());
    }

    static method SumCosts(selected: seq<CostRow>) returns (total: Cost)
      ensures total == SumOf(selected)
    {
      total := ZERO_COST;
      AddCostLaws(SumOf(selected), ZERO_COST, ZERO_COST);
      assert selected[0..] == selected;
      for i := 0 to |selected|
        invariant AddCost(total, SumOf(selected[i..])) == SumOf(selected)
      {
        assert selected[i..][1..] == selected[i + 1..];
        AddCostLaws(total, selected[i].cost, SumOf(selected[i + 1..]));
        total := AddCost(total, selected[i].cost);
      }
      AddCostLaws(total, ZERO_COST, ZERO_COST);
    }

    method ThreadCost(id: string) returns (total: Cost)
      ensures total == SumOf(CostsOf(costs, id))
    {
      var selected := [];
      for i := 0 to |costs|
        invariant selected == CostsOf(costs[..i], id)
      {
        assert costs[..i + 1] == costs[..i] + [costs[i]];
        CostsOfSnoc(costs[..i], costs[i], id);
        if costs[i].thread == id {
          selected := selected + [costs[i]];
        }
      }
      assert costs[..|costs|] == costs;
      total := SumCosts(selected);
    }
  }
}
