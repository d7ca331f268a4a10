/**
 The in-memory clip counter against the clip directory (recorder/clip_storage.py): finalizers that
 publish and then count (recorder/finalize.py), and deletions by users and by capacity pruning
 that unlink and then discount (recorder/main.py), in any interleaving.
 */
module ClipCounter {
  import opened ClipStorage

  type Clip = nat
  type Task = nat

  datatype Stage =
    | Published   // renamed into place, not yet measured
    | Measured    // writing the sidecar, not yet counted
    | Deleting    // measured for deletion
    | Unlinked    // removed, not yet discounted

  datatype Pc = Pc(stage: Stage, clip: Clip, size: nat)

  // `clamped` counts the discounts that found the counter at zero, `lost` the finalizers whose
  // clip was gone when they came to measure it, since the counter was last seeded.
  datatype State = State(
    files: map<Clip, nat>, counter: nat, tasks: map<Task, Pc>, names: set<Clip>, clamped: nat, lost: nat)

  datatype Step =
    | Publish(task: Task, clip: Clip, size: nat)
    | Measure(task: Task)
    | Count(task: Task)
    | Stat(task: Task, clip: Clip)
    | Unlink(task: Task)
    | Discount(task: Task)
    | Restart

  predicate Enabled(s: State, step: Step) {
    match step
    case Publish(k, c, n) => k !in s.tasks && c !in s.names
    case Measure(k) => k in s.tasks && s.tasks[k].stage.Published?
    case Count(k) => k in s.tasks && s.tasks[k].stage.Measured?
    case Stat(k, c) => k !in s.tasks && c in s.files
    case Unlink(k) => k in s.tasks && s.tasks[k].stage.Deleting?
    case Discount(k) => k in s.tasks && s.tasks[k].stage.Unlinked?
    case Restart => true
  }

  function BigFiles(s: State): set<Clip> {
    set c | c in s.files && s.files[c] >= MIN_CLIP_SIZE
  }

  predicate IsUncounted(pc: Pc) {
    (pc.stage.Published? || pc.stage.Measured?) && pc.size >= MIN_CLIP_SIZE
  }

  predicate IsUndiscounted(pc: Pc) {
    pc.stage.Unlinked? && pc.size >= MIN_CLIP_SIZE
  }

  /** Finalizers that have published and not yet counted. */
  function Uncounted(s: State): set<Task> {
    set k | k in s.tasks && IsUncounted(s.tasks[k])
  }

  /** Deletions that have unlinked and not yet discounted. */
  function Undiscounted(s: State): set<Task> {
    set k | k in s.tasks && IsUndiscounted(s.tasks[k])
  }

  function After(s: State, step: Step): State
    requires Enabled(s, step)
  {
    match step
    case Publish(k, c, n) =>
      s.(files := s.files[c := n], names := s.names + {c}, tasks := s.tasks[k := Pc(Published, c, n)])
    case Measure(k) =>
      var c, n := s.tasks[k].clip, s.tasks[k].size;
      if c in s.files then s.(tasks := s.tasks[k := Pc(Measured, c, n)])
      else s.(tasks := s.tasks - {k}, lost := if n >= MIN_CLIP_SIZE then s.lost + 1 else s.lost)
    case Count(k) =>
      s.(counter := if s.tasks[k].size >= MIN_CLIP_SIZE then s.counter + 1 else s.counter, tasks := s.tasks - {k})
    case Stat(k, c) => s.(tasks := s.tasks[k := Pc(Deleting, c, s.files[c])])
    case Unlink(k) =>
      // Whoever comes second finds the file gone, and the clip is not his to discount.
      var c := s.tasks[k].clip;
      if c in s.files then s.(files := s.files - {c}, tasks := s.tasks[k := Pc(Unlinked, c, s.tasks[k].size)])
      else s.(tasks := s.tasks - {k})
    case Discount(k) =>
      var n := s.tasks[k].size;
      s.(counter := Discounted(s.counter, n), tasks := s.tasks - {k},
         clamped := if n >= MIN_CLIP_SIZE && s.counter == 0 then s.clamped + 1 else s.clamped)
    case Restart => s.(tasks := map[], counter := |BigFiles(s)|, clamped := 0, lost := 0)
  }

  ghost predicate Sizes(s: State) {
    && s.files.Keys <= s.names
    && forall k | k in s.tasks ::
      s.tasks[k].clip in s.names && (s.tasks[k].clip in s.files ==> s.files[s.tasks[k].clip] == s.tasks[k].size)
  }

  /** Where every unit of the counter comes from. */
  ghost predicate Balanced(s: State) {
    s.counter + |Uncounted(s)| + s.lost == |BigFiles(s)| + |Undiscounted(s)| + s.clamped
  }

  ghost predicate Init(s: State) {
    s.tasks == map[] && s.counter == |BigFiles(s)| && s.clamped == 0 && s.lost == 0 && s.files.Keys <= s.names
  }

  lemma StepKeepsSizes(s: State, step: Step)
    requires Sizes(s) && Enabled(s, step)
    ensures Sizes(After(s, step))
  {
  }

  function One(yes: bool): nat {
    if yes then 1 else 0
  }

  lemma UncountedTask(s: State, t: State, k: Task)
    requires k in s.tasks && t.tasks == s.tasks - {k}
    ensures |Uncounted(s)| == |Uncounted(t)| + One(IsUncounted(s.tasks[k]))
  {
    assert Uncounted(s) == Uncounted(t) + if IsUncounted(s.tasks[k]) then {k} else {};
  }

  lemma UndiscountedTask(s: State, t: State, k: Task)
    requires k in s.tasks && t.tasks == s.tasks - {k}
    ensures |Undiscounted(s)| == |Undiscounted(t)| + One(IsUndiscounted(s.tasks[k]))
  {
    assert Undiscounted(s) == Undiscounted(t) + if IsUndiscounted(s.tasks[k]) then {k} else {};
  }

  /** What task k contributes to the two counts. */
  lemma TaskContributes(s: State, t: State, k: Task)
    requires k in s.tasks && t.tasks == s.tasks - {k}
    ensures |Uncounted(s)| == |Uncounted(t)| + One(IsUncounted(s.tasks[k]))
    ensures |Undiscounted(s)| == |Undiscounted(t)| + One(IsUndiscounted(s.tasks[k]))
  {
    UncountedTask(s, t, k);
    UndiscountedTask(s, t, k);
  }

  lemma FileContributes(s: State, t: State, c: Clip)
    requires c in s.files && t.files == s.files - {c}
    ensures |BigFiles(s)| == |BigFiles(t)| + One(s.files[c] >= MIN_CLIP_SIZE)
  {
    assert BigFiles(s) == BigFiles(t) + if s.files[c] >= MIN_CLIP_SIZE then {c} else {};
  }

  lemma StepKeepsBalance(s: State, step: Step)
    requires Sizes(s) && Balanced(s) && Enabled(s, step)
    ensures Sizes(After(s, step)) && Balanced(After(s, step))
  {
    StepKeepsSizes(s, step);
    var t := After(s, step);
    if step.Restart? {
      assert Uncounted(t) == {} && Undiscounted(t) == {} && BigFiles(t) == BigFiles(s);
    } else {
      // The state without the thread the step belongs to, before and after.
      var k := step.task;
      var rest := s.(tasks := s.tasks - {k});
      assert t.tasks - {k} == rest.tasks;
      if k in s.tasks {
        TaskContributes(s, rest, k);
      } else {
        assert rest == s;
      }
      if k in t.tasks {
        TaskContributes(t, rest, k);
      } else {
        assert Uncounted(t) == Uncounted(rest) && Undiscounted(t) == Undiscounted(rest);
      }
      if step.Publish? {
        assert t.files - {step.clip} == s.files;
        FileContributes(t, s, step.clip);
      } else if step.Unlink? && s.tasks[k].clip in s.files {
        FileContributes(s, t, s.tasks[k].clip);
      } else {
        assert BigFiles(t) == BigFiles(s);
      }
    }
  }

  ghost predicate Run(s: State, steps: seq<Step>, t: State)
    decreases |steps|
  {
    if steps == [] then s == t else Enabled(s, steps[0]) && Run(After(s, steps[0]), steps[1..], t)
  }

  lemma {:induction false} RunKeepsBalance(s: State, steps: seq<Step>, t: State)
    requires Sizes(s) && Balanced(s) && Run(s, steps, t)
    ensures Sizes(t) && Balanced(t)
    decreases |steps|
  {
    if steps == [] {
    } else {
      StepKeepsBalance(s, steps[0]);
      RunKeepsBalance(After(s, steps[0]), steps[1..], t);
    }
  }

  /**
   In every interleaving the counter is the clips listed, less the published but uncounted, plus the
   unlinked but undiscounted, plus the clamped discounts, less the finalizers that lost their clip.
   */
  lemma CounterLedger(s: State, steps: seq<Step>, t: State)
    requires Init(s) && Run(s, steps, t)
    ensures t.counter == |BigFiles(t)| - |Uncounted(t)| + |Undiscounted(t)| + t.clamped - t.lost
    ensures t.tasks == map[] ==> t.counter == |BigFiles(t)| + t.clamped - t.lost
  {
    assert Uncounted(s) == {} && Undiscounted(s) == {};
    RunKeepsBalance(s, steps, t);
    assert t.tasks == map[] ==> Uncounted(t) == {} && Undiscounted(t) == {};
  }

  // ── When the counter drifts ──

  /** Counter and directory agree, up to what is published and uncounted or unlinked and undiscounted. */
  ghost predicate Exact(s: State) {
    s.counter + |Uncounted(s)| == |BigFiles(s)| + |Undiscounted(s)|
  }

  /** A discount that finds the counter at zero, or a measurement that finds the clip gone. */
  predicate Drifts(s: State, step: Step)
    requires Enabled(s, step)
  {
    || (step.Discount? && s.tasks[step.task].size >= MIN_CLIP_SIZE && s.counter == 0)
    || (step.Measure? && s.tasks[step.task].size >= MIN_CLIP_SIZE && s.tasks[step.task].clip !in s.files)
  }

  lemma StepExactIff(s: State, step: Step)
    requires Sizes(s) && Balanced(s) && Exact(s) && Enabled(s, step)
    ensures Exact(After(s, step)) <==> !Drifts(s, step)
  {
    StepKeepsBalance(s, step);
  }

  ghost predicate ExactThroughout(s: State, steps: seq<Step>)
    decreases |steps|
  {
    Exact(s) && (steps == [] || (Enabled(s, steps[0]) && ExactThroughout(After(s, steps[0]), steps[1..])))
  }

  ghost predicate NeverDrifts(s: State, steps: seq<Step>)
    decreases |steps|
  {
    steps == [] || (Enabled(s, steps[0]) && !Drifts(s, steps[0]) && NeverDrifts(After(s, steps[0]), steps[1..]))
  }

  /** The counter is exact at every point of a run if and only if no step of it drifts. */
  lemma RunExactIff(s: State, steps: seq<Step>, t: State)
    requires Init(s) && Run(s, steps, t)
    ensures ExactThroughout(s, steps) <==> NeverDrifts(s, steps)
    ensures NeverDrifts(s, steps) && t.tasks == map[] ==> t.counter == |BigFiles(t)|
  {
    assert Uncounted(s) == {} && Undiscounted(s) == {};
    ExactRunIff(s, steps, t);
    assert t.tasks == map[] ==> Uncounted(t) == {} && Undiscounted(t) == {};
  }

  lemma {:induction false} ExactRunIff(s: State, steps: seq<Step>, t: State)
    requires Sizes(s) && Balanced(s) && Exact(s) && Run(s, steps, t)
    ensures ExactThroughout(s, steps) <==> NeverDrifts(s, steps)
    ensures NeverDrifts(s, steps) ==> Exact(t)
    decreases |steps|
  {
    if steps == [] {
    } else {
      StepKeepsBalance(s, steps[0]);
      StepExactIff(s, steps[0]);
      if !Drifts(s, steps[0]) {
        ExactRunIff(After(s, steps[0]), steps[1..], t);
      }
    }
  }

  // ── Runs in which no clip is removed before it is counted ──

  /** The step removes a clip whose finalizer has not counted it. */
  ghost predicate Premature(s: State, step: Step)
    requires Enabled(s, step)
  {
    step.Unlink? && exists k :: Unfinished(s, k, s.tasks[step.task].clip)
  }

  ghost predicate Unfinished(s: State, k: Task, c: Clip) {
    k in s.tasks && (s.tasks[k].stage.Published? || s.tasks[k].stage.Measured?) && s.tasks[k].clip == c
  }

  ghost predicate Patient(s: State, steps: seq<Step>)
    decreases |steps|
  {
    steps == [] ||
    (Enabled(s, steps[0]) && !Premature(s, steps[0]) && Patient(After(s, steps[0]), steps[1..]))
  }

  /** What is being finalized is listed, and by one finalizer only. */
  ghost predicate FinalizersListed(s: State) {
    && s.files.Keys <= s.names
    && (forall k, c | Unfinished(s, k, c) :: c in s.files && s.files[c] == s.tasks[k].size)
    && (forall k, j, c | Unfinished(s, k, c) && Unfinished(s, j, c) :: k == j)
  }

  lemma {:induction false} FewerNames(tasks: set<Task>, s: State, files: set<Clip>)
    requires forall k | k in tasks :: k in s.tasks && Unfinished(s, k, s.tasks[k].clip) && s.tasks[k].clip in files
    requires forall k, j, c | Unfinished(s, k, c) && Unfinished(s, j, c) :: k == j
    ensures |tasks| <= |files|
    decreases tasks
  {
    if tasks == {} {
    } else {
      var k :| k in tasks;
      var c := s.tasks[k].clip;
      forall j | j in tasks - {k} ensures s.tasks[j].clip in files - {c} {
        assert Unfinished(s, j, s.tasks[j].clip) && Unfinished(s, k, c);
      }
      FewerNames(tasks - {k}, s, files - {c});
      assert |files - {c}| == |files| - 1 && |tasks - {k}| == |tasks| - 1;
    }
  }

  lemma PatientStep(s: State, step: Step)
    requires FinalizersListed(s) && Sizes(s) && Balanced(s) && s.clamped == 0 && s.lost == 0
    requires Enabled(s, step) && !Premature(s, step)
    ensures FinalizersListed(After(s, step)) && After(s, step).clamped == 0 && After(s, step).lost == 0
  {
    var t := After(s, step);
    forall k, c | Unfinished(t, k, c) ensures c in t.files && t.files[c] == t.tasks[k].size {
      assert Unfinished(s, k, c) || (step.Publish? && step.task == k);
    }
    forall k, j, c | Unfinished(t, k, c) && Unfinished(t, j, c) ensures k == j {
      assert Unfinished(s, k, c) || (step.Publish? && step.task == k);
      assert Unfinished(s, j, c) || (step.Publish? && step.task == j);
    }
    if step.Measure? {
      assert Unfinished(s, step.task, s.tasks[step.task].clip);
    }
    if step.Discount? && s.tasks[step.task].size >= MIN_CLIP_SIZE {
      forall k | k in Uncounted(s) ensures Unfinished(s, k, s.tasks[k].clip) && s.tasks[k].clip in BigFiles(s) {
        assert Unfinished(s, k, s.tasks[k].clip);
      }
      FewerNames(Uncounted(s), s, BigFiles(s));
      assert step.task in Undiscounted(s);
    }
  }

  lemma {:induction false} PatientRunNeverClamps(s: State, steps: seq<Step>, t: State)
    requires FinalizersListed(s) && Sizes(s) && Balanced(s) && s.clamped == 0 && s.lost == 0
    requires Run(s, steps, t) && Patient(s, steps)
    ensures t.clamped == 0 && t.lost == 0
    decreases |steps|
  {
    if steps == [] {
    } else {
      PatientStep(s, steps[0]);
      StepKeepsBalance(s, steps[0]);
      PatientRunNeverClamps(After(s, steps[0]), steps[1..], t);
    }
  }

  /** If no clip is removed before it was counted, the counter is exact at every point of the run. */
  lemma PatientRunsAreExact(s: State, steps: seq<Step>, t: State)
    requires Init(s) && Run(s, steps, t) && Patient(s, steps)
    ensures t.counter == |BigFiles(t)| - |Uncounted(t)| + |Undiscounted(t)|
    ensures t.tasks == map[] ==> t.counter == |BigFiles(t)|
  {
    assert Uncounted(s) == {} && Undiscounted(s) == {};
    PatientRunNeverClamps(s, steps, t);
    CounterLedger(s, steps, t);
  }

  /** A finalization that nothing disturbs lists its clip, and counts it unless it is damaged. */
  lemma UndisturbedFinalize(s: State, k: Task, c: Clip, n: nat) returns (steps: seq<Step>, t: State)
    requires k !in s.tasks && c !in s.names
    ensures Run(s, steps, t)
    ensures t == s.(files := s.files[c := n], names := s.names + {c},
                    counter := s.counter + if n >= 10240 then 1 else 0)
  {
    var s1 := After(s, Publish(k, c, n));
    var s2 := After(s1, Measure(k));
    t := After(s2, Count(k));
    assert t.tasks == s.tasks;
    RunCons(s2, Count(k), [], t);
    RunCons(s1, Measure(k), [Count(k)], t);
    RunCons(s, Publish(k, c, n), [Measure(k)] + [Count(k)], t);
    steps := [Publish(k, c, n)] + ([Measure(k)] + [Count(k)]);
  }

  /** A deletion that nothing disturbs takes its clip off the list, and off the counter unless it is damaged. */
  lemma UndisturbedDelete(s: State, k: Task, c: Clip) returns (steps: seq<Step>, t: State)
    requires k !in s.tasks && c in s.files
    ensures Run(s, steps, t)
    ensures t == s.(files := s.files - {c}, counter := t.counter, clamped := t.clamped)
    ensures s.files[c] < 10240 ==> t.counter == s.counter && t.clamped == s.clamped
    ensures s.files[c] >= 10240 && s.counter > 0 ==> t.counter == s.counter - 1 && t.clamped == s.clamped
    ensures s.files[c] >= 10240 && s.counter == 0 ==> t.counter == 0 && t.clamped == s.clamped + 1
  {
    var s1 := After(s, Stat(k, c));
    var s2 := After(s1, Unlink(k));
    t := After(s2, Discount(k));
    assert t.tasks == s.tasks;
    RunCons(s2, Discount(k), [], t);
    RunCons(s1, Unlink(k), [Discount(k)], t);
    RunCons(s, Stat(k, c), [Unlink(k)] + [Discount(k)], t);
    steps := [Stat(k, c)] + ([Unlink(k)] + [Discount(k)]);
  }

  /** Two deletions of one clip discount it once: the second finds it gone and leaves everything alone. */
  lemma SecondDeletionChangesNothing(s: State, k: Task) returns (steps: seq<Step>, t: State)
    requires k in s.tasks && s.tasks[k].stage.Deleting? && s.tasks[k].clip !in s.files
    ensures Run(s, steps, t) && t == s.(tasks := s.tasks - {k})
  {
    t := After(s, Unlink(k));
    RunCons(s, Unlink(k), [], t);
    steps := [Unlink(k)] + [];
  }

  lemma RunCons(s: State, step: Step, rest: seq<Step>, t: State)
    requires Enabled(s, step) && Run(After(s, step), rest, t)
    ensures Run(s, [step] + rest, t)
  {
    assert ([step] + rest)[1..] == rest;
  }

  /** A deletion that overtakes the count makes the counter drift for good: here one too many. */
  lemma DeletionBeforeCountOvercounts(n: nat) returns (steps: seq<Step>, t: State)
    requires n >= MIN_CLIP_SIZE
    ensures Run(State(map[], 0, map[], {}, 0, 0), steps, t)
    ensures t.tasks == map[] && t.counter == 1 && BigFiles(t) == {}
  {
    var s := State(map[], 0, map[], {}, 0, 0);
    var s1 := After(s, Publish(0, 7, n));
    var s2 := After(s1, Measure(0));
    var s3 := After(s2, Stat(1, 7));
    var s4 := After(s3, Unlink(1));
    var s5 := After(s4, Discount(1));
    t := After(s5, Count(0));
    steps := [];
    RunCons(s5, Count(0), steps, t);
    steps := [Count(0)] + steps;
    RunCons(s4, Discount(1), steps, t);
    steps := [Discount(1)] + steps;
    RunCons(s3, Unlink(1), steps, t);
    steps := [Unlink(1)] + steps;
    RunCons(s2, Stat(1, 7), steps, t);
    steps := [Stat(1, 7)] + steps;
    RunCons(s1, Measure(0), steps, t);
    steps := [Measure(0)] + steps;
    RunCons(s, Publish(0, 7, n), steps, t);
    steps := [Publish(0, 7, n)] + steps;
    assert t.tasks == map[] && BigFiles(t) == {};
  }

  /** And here one too few: the deletion overtakes even the measuring, so that nobody counts. */
  lemma DeletionBeforeMeasureUndercounts(n: nat) returns (steps: seq<Step>, t: State)
    requires n >= MIN_CLIP_SIZE
    ensures Run(State(map[5 := n], 1, map[], {5}, 0, 0), steps, t)
    ensures t.tasks == map[] && t.counter == 0 && BigFiles(t) == {5}
  {
    var s := State(map[5 := n], 1, map[], {5}, 0, 0);
    var s1 := After(s, Publish(0, 7, n));
    var s2 := After(s1, Stat(1, 7));
    var s3 := After(s2, Unlink(1));
    var s4 := After(s3, Discount(1));
    t := After(s4, Measure(0));
    steps := [];
    RunCons(s4, Measure(0), steps, t);
    steps := [Measure(0)] + steps;
    RunCons(s3, Discount(1), steps, t);
    steps := [Discount(1)] + steps;
    RunCons(s2, Unlink(1), steps, t);
    steps := [Unlink(1)] + steps;
    RunCons(s1, Stat(1, 7), steps, t);
    steps := [Stat(1, 7)] + steps;
    RunCons(s, Publish(0, 7, n), steps, t);
    steps := [Publish(0, 7, n)] + steps;
    assert t.tasks == map[] && BigFiles(t) == {5};
  }
}
