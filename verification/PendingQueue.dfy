/** The pending queue on disk: one JSON object per line, appended to and rewritten. */
module PendingQueue {
  import opened Lists
  import opened Lines

  datatype Option<T> = None | Some(value: T)

  datatype Json = Text(s: string) | Int(n: int) | Object(json: string)

  type Dict = map<string, Json>

  /** A stored task; the payload is opaque, and clock readings are whole microseconds. */
  datatype PendingTask = PendingTask(taskId: string, target: string, capability: string, payload: string,
                                     createdAt: int, retries: int, ttl: int)

  const DEFAULT_TTL := 60

  function ToDict(t: PendingTask): Dict {
    map["task_id" := Text(t.taskId), "target_node" := Text(t.target), "capability" := Text(t.capability),
        "payload" := Object(t.payload), "created_at" := Int(t.createdAt),
        "retries" := Int(t.retries), "ttl_s" := Int(t.ttl)]
  }

  /** Five fields are required; retries and ttl_s have defaults. */
  function FromDict(d: Dict): Option<PendingTask> {
    if "task_id" in d && "target_node" in d && "capability" in d && "payload" in d && "created_at" in d
       && d["task_id"].Text? && d["target_node"].Text? && d["capability"].Text? && d["payload"].Object?
       && d["created_at"].Int? && ("retries" in d ==> d["retries"].Int?) && ("ttl_s" in d ==> d["ttl_s"].Int?)
    then Some(PendingTask(d["task_id"].s, d["target_node"].s, d["capability"].s, d["payload"].json,
                          d["created_at"].n,
                          if "retries" in d then d["retries"].n else 0,
                          if "ttl_s" in d then d["ttl_s"].n else DEFAULT_TTL))
    else None
  }

  lemma DictRoundTrip(t: PendingTask)
    ensures FromDict(ToDict(t)) == Some(t)
    ensures ToDict(t).Keys ==
            {"task_id", "target_node", "capability", "payload", "created_at", "retries", "ttl_s"}
    ensures FromDict(ToDict(t)["target_node" := Text("x")]) == Some(t.(target := "x"))
    ensures FromDict(ToDict(t)["capability" := Text("x")]) == Some(t.(capability := "x"))
  {
    var d := ToDict(t);
    assert d["task_id"] == Text(t.taskId) && d["created_at"] == Int(t.createdAt) && d["ttl_s"] == Int(t.ttl);
  }

  /** Rows written before the two optional fields existed still load, with the defaults. */
  lemma OldRowsLoad(t: PendingTask)
    ensures FromDict(ToDict(t) - {"retries", "ttl_s"}) == Some(t.(retries := 0, ttl := 60))
  {
    var d := ToDict(t) - {"retries", "ttl_s"};
    assert d["task_id"] == Text(t.taskId) && d["created_at"] == Int(t.createdAt);
  }

  /** The JSON library. */
  datatype Codec = Codec(dumps: Dict -> string, loads: string -> Option<Dict>) {
    /** It undoes itself, writes no line breaks and no blank at either end, and does not read an object with other
        text in front of it. */
    ghost predicate Faithful() {
      && (forall d {:trigger dumps(d)} :: loads(dumps(d)) == Some(d))
      && (forall d {:trigger dumps(d)} :: NoBreaks(dumps(d), InFile) && Stripped(dumps(d)))
      && (forall p: string, d :: p != "" && !Blank(p[0]) ==> loads(p + dumps(d)) == None)
    }

    function Row(t: PendingTask): string {
      dumps(ToDict(t))
    }

    /** What one line contributes: a task, or nothing if it is blank or does not parse. */
    function ReadRow(line: string): List<PendingTask> {
      var s := Strip(line);
      if s == "" then Nil
      else
        match loads(s)
        case None => Nil
        case Some(d) =>
          match FromDict(d)
          case None => Nil
          case Some(t) => Cons(t, Nil)
    }

    function Load(text: string): List<PendingTask>
      decreases |text|
    {
      if text == "" then Nil else ReadRow(FirstLine(text, InFile)).Append(Load(AfterLine(text, InFile)))
    }

    /** The rows of ts in front of rest. */
    function Save(ts: List<PendingTask>, rest: string): string {
      if ts.Nil? then rest else Row(ts.head) + ("\n" + Save(ts.tail, rest))
    }
  }

  lemma StrippedStays(s: string)
    requires Stripped(s)
    ensures Strip(s) == s
  {
  }

  lemma RowReadsBack(c: Codec, t: PendingTask)
    requires c.Faithful()
    ensures c.ReadRow(c.Row(t)) == Cons(t, Nil) && NoBreaks(c.Row(t), InFile)
  {
    StrippedStays(c.Row(t));
    DictRoundTrip(t);
  }

  lemma LoadLineThen(c: Codec, line: string, rest: string)
    requires NoBreaks(line, InFile)
    ensures c.Load(line + ("\n" + rest)) == c.ReadRow(line).Append(c.Load(rest))
  {
    SplitAtLine(line, rest, InFile);
  }

  /** What was saved loads back, followed by whatever comes after it. */
  lemma {:induction false} SaveThenLoad(c: Codec, ts: List<PendingTask>, rest: string)
    requires c.Faithful()
    ensures c.Load(c.Save(ts, rest)) == ts.Append(c.Load(rest))
  {
    if ts.Cons? {
      SaveThenLoad(c, ts.tail, rest);
      RowReadsBack(c, ts.head);
      LoadLineThen(c, c.Row(ts.head), c.Save(ts.tail, rest));
    }
  }

  lemma {:induction false} SavedLinesAreComplete(c: Codec, ts: List<PendingTask>, rest: string)
    requires Complete(rest, InFile)
    ensures Complete(c.Save(ts, rest), InFile)
  {
    if ts.Cons? {
      var row, more := c.Row(ts.head), c.Save(ts.tail, rest);
      SavedLinesAreComplete(c, ts.tail, rest);
      assert (row + ("\n" + more))[|row|..] == "\n" + more;
    }
  }

  /** Text appended to complete lines is read after them. */
  lemma {:induction false} LoadAppended(c: Codec, text: string, more: string)
    requires Complete(text, InFile)
    ensures c.Load(text + more) == c.Load(text).Append(c.Load(more))
    decreases |text|
  {
    if text == "" {
      assert text + more == more;
    } else {
      SplitAppended(text, more, InFile);
      LoadAppended(c, AfterLine(text, InFile), more);
      AppendAssoc(c.ReadRow(FirstLine(text, InFile)), c.Load(AfterLine(text, InFile)), c.Load(more));
    }
  }

  /** A complete line that does not parse drops only itself, wherever it stands. */
  lemma BadLineDropsOnlyItself(c: Codec, before: string, line: string, after: string)
    requires Complete(before, InFile) && NoBreaks(line, InFile) && c.ReadRow(line) == Nil
    ensures c.Load(before + (line + ("\n" + after))) == c.Load(before).Append(c.Load(after))
  {
    LoadAppended(c, before, line + ("\n" + after));
    LoadLineThen(c, line, after);
  }

  /** An unterminated last line swallows the next task: both become one line. */
  lemma TornLineIsShared(c: Codec, before: string, fragment: string, t: PendingTask)
    requires c.Faithful() && Complete(before, InFile) && NoBreaks(fragment, InFile)
    ensures c.Load(before + (fragment + (c.Row(t) + "\n"))) == c.Load(before).Append(c.ReadRow(fragment + c.Row(t)))
  {
    RowReadsBack(c, t);
    var line := fragment + c.Row(t);
    assert fragment + (c.Row(t) + "\n") == line + ("\n" + "");
    LoadAppended(c, before, line + ("\n" + ""));
    SplitAtLine(line, "", InFile);
    AppendNil(c.ReadRow(line));
  }

  /** The next task after an unterminated last line is stored exactly when that line is blank. If it is not, the task
      is lost, and so is whatever the line held: all that loads is what stood before it. */
  lemma AppendAfterTornLineIff(c: Codec, before: string, fragment: string, t: PendingTask)
    requires c.Faithful() && Complete(before, InFile) && NoBreaks(fragment, InFile)
    ensures c.Load(before + (fragment + (c.Row(t) + "\n"))) == c.Load(before + fragment).Append(Cons(t, Nil))
            <==> Strip(fragment) == ""
    ensures Strip(fragment) != "" ==> c.Load(before + (fragment + (c.Row(t) + "\n"))) == c.Load(before)
  {
    TornLineIsShared(c, before, fragment, t);
    LastLineLoads(c, before, fragment);
    RowBehindFragment(c, fragment, t);
    AppendNil(c.Load(before));
    if Strip(fragment) != "" { LongerByOne(c.Load(before), c.ReadRow(fragment), t); }
  }

  /** So a stored task whose line end is missing goes as well when the next one is appended. */
  lemma TornTaskIsLost(c: Codec, t0: PendingTask, t: PendingTask)
    requires c.Faithful()
    ensures c.Load(c.Row(t0)) == Cons(t0, Nil) && c.Load(c.Row(t0) + (c.Row(t) + "\n")) == Nil
  {
    RowReadsBack(c, t0);
    StrippedStays(c.Row(t0));
    LastLineLoads(c, "", c.Row(t0));
    AppendAfterTornLineIff(c, "", c.Row(t0), t);
    assert "" + c.Row(t0) == c.Row(t0);
    assert "" + (c.Row(t0) + (c.Row(t) + "\n")) == c.Row(t0) + (c.Row(t) + "\n");
  }

  lemma LastLineLoads(c: Codec, before: string, fragment: string)
    requires Complete(before, InFile) && NoBreaks(fragment, InFile)
    ensures c.Load(before + fragment) == c.Load(before).Append(c.ReadRow(fragment))
  {
    LoadAppended(c, before, fragment);
    WholeLine(fragment, InFile);
    AppendNil(c.ReadRow(fragment));
  }

  lemma RowBehindFragment(c: Codec, fragment: string, t: PendingTask)
    requires c.Faithful()
    ensures Strip(fragment) == "" ==> c.ReadRow(fragment) == Nil && c.ReadRow(fragment + c.Row(t)) == Cons(t, Nil)
    ensures Strip(fragment) != "" ==> c.ReadRow(fragment + c.Row(t)) == Nil
  {
    var p := StripLeft(fragment);
    StripInFront(fragment, c.Row(t));
    StripLeftEnds(fragment);
    StripRightKeeps(p);
    if p == "" {
      assert "" + c.Row(t) == c.Row(t);
      RowReadsBack(c, t);
      StrippedStays(c.Row(t));
    } else {
      assert c.loads(p + c.dumps(ToDict(t))) == None;
    }
  }

  lemma {:induction false} LongerByOne(a: List<PendingTask>, b: List<PendingTask>, t: PendingTask)
    ensures a.Append(b).Append(Cons(t, Nil)) != a
  {
    if a.Cons? { LongerByOne(a.tail, b, t); }
  }

  /** Calls made on a queue so far, the latest one outermost. */
  datatype Calls =
    | NoCalls
    | Enqueued(before: Calls, task: PendingTask)
    | SavedAll(before: Calls, tasks: List<PendingTask>)

  function TextAfter(c: Codec, h: Calls): string {
    match h
    case NoCalls => ""
    case Enqueued(b, t) => TextAfter(c, b) + c.Save(Cons(t, Nil), "")
    case SavedAll(_, ts) => c.Save(ts, "")
  }

  function QueueAfter(h: Calls): List<PendingTask> {
    match h
    case NoCalls => Nil
    case Enqueued(b, t) => QueueAfter(b).Append(Cons(t, Nil))
    case SavedAll(_, ts) => ts
  }

  /** For every interleaving of the two writers the file loads as exactly the abstract queue, in order. */
  lemma {:induction false} FileRefinesQueue(c: Codec, h: Calls)
    requires c.Faithful()
    ensures c.Load(TextAfter(c, h)) == QueueAfter(h) && Complete(TextAfter(c, h), InFile)
  {
    match h
    case NoCalls =>
    case Enqueued(b, t) =>
      FileRefinesQueue(c, b);
      SaveThenLoad(c, Cons(t, Nil), "");
      SavedLinesAreComplete(c, Cons(t, Nil), "");
      LoadAppended(c, TextAfter(c, b), c.Save(Cons(t, Nil), ""));
    case SavedAll(_, ts) =>
      SaveThenLoad(c, ts, "");
      SavedLinesAreComplete(c, ts, "");
      AppendNil(ts);
  }

  class Queue {
    const codec: Codec
    var present: bool
    var content: string

    /** The abstract queue. */
    ghost function Contents(): List<PendingTask>
      reads this
    {
      if present then codec.Load(content) else Nil
    }

    ghost predicate Valid()
      reads this
    {
      codec.Faithful() && (present ==> Complete(content, InFile))
    }

    constructor (codec: Codec)
      requires codec.Faithful()
      ensures Valid() && this.codec == codec && Contents() == Nil
    {
      this.codec := codec;
      present, content := false, "";
    }

    method Enqueue(taskId: string, target: string, capability: string, payload: string, ttl: int, now: int)
      requires Valid()
      modifies this
      ensures Valid()
      ensures Contents() == old(Contents()).Append(
                              Cons(PendingTask(taskId, target, capability, payload, now, 0, ttl), Nil))
    {
      var task := PendingTask(taskId, target, capability, payload, now, 0, ttl);
      var before := if present then content else "";
      SaveThenLoad(codec, Cons(task, Nil), "");
      SavedLinesAreComplete(codec, Cons(task, Nil), "");
      LoadAppended(codec, before, codec.Save(Cons(task, Nil), ""));
      assert codec.Save(Cons(task, Nil), "") == codec.Row(task) + ("\n" + "");
      assert "\n" + "" == "\n";
      content := before + (codec.Row(task) + "\n");
      present := true;
    }

    method LoadAll() returns (tasks: List<PendingTask>)
      ensures tasks == Contents()
    {
      tasks := Nil;
      if !present {
        return;
      }
      var rest := content;
      while rest != ""
        invariant tasks.Append(codec.Load(rest)) == codec.Load(content)
        decreases |rest|
      {
        var row := codec.ReadRow(FirstLine(rest, InFile));
        AppendAssoc(tasks, row, codec.Load(AfterLine(rest, InFile)));
        tasks := tasks.Append(row);
        rest := AfterLine(rest, InFile);
      }
      AppendNil(tasks);
    }

    /** Writes a new file and puts it in the place of the old one. */
    method SaveAll(tasks: List<PendingTask>)
      requires Valid()
      modifies this
      ensures Valid() && Contents() == tasks
    {
      var text, todo := "", tasks;
      SaveThenLoad(codec, tasks, "");
      SavedLinesAreComplete(codec, tasks, "");
      AppendNil(tasks);
      while todo.Cons?
        invariant text + codec.Save(todo, "") == codec.Save(tasks, "")
        decreases todo
      {
        ghost var more := codec.Save(todo.tail, "");
        var row := codec.Row(todo.head);
        Assoc(text, row, "\n" + more);
        Assoc(text + row, "\n", more);
        text := text + row;
        text := text + "\n";
        todo := todo.tail;
      }
      assert text + "" == text;
      content, present := text, true;
    }
  }
}
