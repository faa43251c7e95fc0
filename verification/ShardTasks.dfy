/** cosmos_curate/pipelines/video/sharding_pipeline.py: one task per tar, numbered by part and tar within each bin. */
module ShardTasks {
  import opened Wrappers
  import opened Sharding
  import Grouping

  /** A ShardPipeTask, with the tar index that its output paths carry. */
  datatype ShardTask<B> = ShardTask(bin: B, partNum: int, tarIdx: nat, samples: seq<Sample>)

  /** The arguments of a sharding run; `existing` lists the part numbers already stored for a bin. */
  datatype Config<!B(==)> = Config(
    find: (int, int, real) -> Option<B>,
    existing: B -> seq<int>,
    dropSmallShards: bool,
    maxTarsPerPart: int,
    targetTarSizeBytes: int,
    minClipsPerTar: int)
  {
    function TarsPerPart(): nat {
      Grouping.FullLength(maxTarsPerPart)
    }

    /** The greedy groups of a bin, before small shards are dropped. */
    function Packed(samples: seq<Sample>, bin: B): seq<seq<Sample>> {
      Pack(InBin(find, samples, Some(bin)), targetTarSizeBytes)
    }

    /** The groups that become tars. */
    function Tars(samples: seq<Sample>, bin: B): seq<seq<Sample>> {
      Kept(Packed(samples, bin), dropSmallShards, minClipsPerTar)
    }
  }

  /** `max(existing, default=-1)` */
  function MaxPart(existing: seq<int>): (m: int)
    ensures forall p :: p in existing ==> p <= m
    ensures m in existing || (existing == [] && m == -1)
  {
    if |existing| == 0 then -1
    else if |existing| == 1 then existing[0]
    else
      var m := MaxPart(existing[1..]);
      assert existing == [existing[0]] + existing[1..];
      if existing[0] > m then existing[0] else m
  }

  /** With `full` tars to a part, the part of tar k counted from the first one, and its place in that part. */
  function PartOf(k: nat, full: nat): (part: nat)
    requires full >= 1
  {
    k / full
  }

  function TarOf(k: nat, full: nat): (tar: nat)
    requires full >= 1
    ensures tar < full
  {
    k % full
  }

  lemma Placement(k: nat, full: nat)
    requires full >= 1
    ensures k == PartOf(k, full) * full + TarOf(k, full)
  {
  }

  lemma AtLeastOnce(d: int, full: nat)
    requires d >= 1
    ensures d * full >= full
  {
    assert d * full == (d - 1) * full + full;
  }

  lemma PlacementIsUnique(p: nat, t: nat, full: nat)
    requires t < full
    ensures PartOf(p * full + t, full) == p && TarOf(p * full + t, full) == t
  {
    hide PartOf;
    hide TarOf;
    var q, r := PartOf(p * full + t, full), TarOf(p * full + t, full);
    Placement(p * full + t, full);
    assert (q - p) * full == t - r;
    if q > p {
      AtLeastOnce(q - p, full);
    } else if q < p {
      AtLeastOnce(p - q, full);
    }
  }

  /** The tasks of one bin: its tars, numbered through its parts. */
  function TasksOfBin<B>(bin: B, start: int, full: nat, tars: seq<seq<Sample>>): seq<ShardTask<B>>
    requires full >= 1
  {
    seq(|tars|, k requires 0 <= k < |tars| => ShardTask(bin, start + PartOf(k, full), TarOf(k, full), tars[k]))
  }

  /** The tasks of one bin; samples outside every bin get none. */
  function TasksOfEntry<B(==)>(config: Config<B>, samples: seq<Sample>, entry: Option<B>): seq<ShardTask<B>> {
    match entry
    case None => []
    case Some(bin) =>
      TasksOfBin(bin, MaxPart(config.existing(bin)) + 1, config.TarsPerPart(), config.Tars(samples, bin))
  }

  /** The tasks of the given bins, in order. */
  function AllTasks<B(==)>(config: Config<B>, samples: seq<Sample>, order: seq<Option<B>>): seq<ShardTask<B>> {
    if order == [] then []
    else
      AllTasks(config, samples, order[..|order| - 1]) + TasksOfEntry(config, samples, order[|order| - 1])
  }

  lemma {:induction false} FullChunksLength<T>(chunks: seq<seq<T>>, size: int, p: nat)
    requires Grouping.AreChunks(chunks, size) && p < |chunks|
    ensures |Grouping.Flatten(chunks[..p])| == p * Grouping.FullLength(size)
  {
    if p > 0 {
      FullChunksLength(chunks, size, p - 1);
      assert chunks[..p] == chunks[..p - 1] + [chunks[p - 1]];
      Grouping.FlattenAppend(chunks[..p - 1], chunks[p - 1]);
      var n := Grouping.FullLength(size);
      assert |chunks[p - 1]| == n;
      hide Grouping.Flatten;
      hide Grouping.FullLength;
      assert (p - 1) * n + n == p * n;
    }
  }

  /** The bins of the output dataset, without the one for samples that fit none. */
  function RealBins<B>(order: seq<Option<B>>): seq<B> {
    if order == [] then []
    else
      RealBins(order[..|order| - 1]) +
      match order[|order| - 1]
      case None => []
      case Some(bin) => [bin]
  }

  /** The two nested enumerations over parts and tars. */
  method NumberTars<B>(bin: B, startingPartNum: int, groups: seq<seq<Sample>>, maxTarsPerPart: int)
      returns (tasks: seq<ShardTask<B>>)
    ensures tasks == TasksOfBin(bin, startingPartNum, Grouping.FullLength(maxTarsPerPart), groups)
  {
    ghost var full := Grouping.FullLength(maxTarsPerPart);
    var parts := Grouping.SplitByChunkSize(groups, maxTarsPerPart);
    tasks := [];
    assert parts[..0] == [];
    for partIdx := 0 to |parts|
      invariant tasks == TasksOfBin(bin, startingPartNum, full, Grouping.Flatten(parts[..partIdx]))
    {
      ghost var done := Grouping.Flatten(parts[..partIdx]);
      FullChunksLength(parts, maxTarsPerPart, partIdx);
      tasks := NumberPart(bin, startingPartNum, full, partIdx, parts[partIdx], tasks, done);
      assert parts[..partIdx + 1] == parts[..partIdx] + [parts[partIdx]];
      Grouping.FlattenAppend(parts[..partIdx], parts[partIdx]);
    }
    assert parts[..|parts|] == parts;
  }

  /** The inner enumeration: the tars of one part, behind `done` tars in full parts. */
  method NumberPart<B>(bin: B, startingPartNum: int, ghost full: nat, partIdx: nat, tarGroup: seq<seq<Sample>>,
                       before: seq<ShardTask<B>>, ghost done: seq<seq<Sample>>) returns (tasks: seq<ShardTask<B>>)
    requires |tarGroup| <= full && 1 <= full && |done| == partIdx * full
    requires before == TasksOfBin(bin, startingPartNum, full, done)
    ensures tasks == TasksOfBin(bin, startingPartNum, full, done + tarGroup)
  {
    hide PartOf;
    hide TarOf;
    tasks := before;
    assert done + tarGroup[..0] == done;
    for tarIdx := 0 to |tarGroup|
      invariant tasks == TasksOfBin(bin, startingPartNum, full, done + tarGroup[..tarIdx])
    {
      PlacementIsUnique(partIdx, tarIdx, full);
      tasks := tasks + [ShardTask(bin, startingPartNum + partIdx, tarIdx, tarGroup[tarIdx])];
    }
    assert tarGroup[..|tarGroup|] == tarGroup;
  }

  /** One bin of the loop: pack its samples, and number the tars behind the parts already stored. */
  method MakeTasksOfBin<B(==)>(config: Config<B>, ghost samples: seq<Sample>, lbin: B, binned: seq<Sample>)
      returns (binTasks: seq<ShardTask<B>>)
    requires binned == InBin(config.find, samples, Some(lbin))
    ensures binTasks == TasksOfEntry(config, samples, Some(lbin))
  {
    hide TasksOfBin;
    hide InBin;
    hide Pack;
    hide Kept;
    var start := MaxPart(config.existing(lbin)) + 1;
    var groups := GroupSamplesBySize(binned, config.targetTarSizeBytes, config.dropSmallShards, config.minClipsPerTar);
    binTasks := NumberTars(lbin, start, groups, config.maxTarsPerPart);
  }

  lemma BinStep<B>(config: Config<B>, samples: seq<Sample>, order: seq<Option<B>>, i: nat)
    requires NoDuplicates(order) && i < |order|
    ensures order[i] in order && order[i] !in order[..i]
    ensures order[..i + 1] == order[..i] + [order[i]]
    ensures AllTasks(config, samples, order[..i + 1]) ==
            AllTasks(config, samples, order[..i]) + TasksOfEntry(config, samples, order[i])
    ensures RealBins(order[..i + 1]) == RealBins(order[..i]) + if order[i].Some? then [order[i].value] else []
  {
    assert order[..i + 1][..i] == order[..i];
    assert forall j :: 0 <= j < i ==> order[j] != order[i];
  }

  method GroupSamplesIntoTasks<B(==)>(config: Config<B>, samples: seq<Sample>)
      returns (tasks: seq<ShardTask<B>>, allBins: seq<B>, numDroppedSamples: nat)
    ensures tasks == AllTasks(config, samples, BinsInOrder(config.find, samples))
    ensures allBins == RealBins(BinsInOrder(config.find, samples))
    ensures numDroppedSamples == |InBin(config.find, samples, None)|
    ensures forall i :: 0 <= i < |tasks| ==> forall p :: p in config.existing(tasks[i].bin) ==> p < tasks[i].partNum
    ensures forall i :: 0 <= i < |tasks| ==>
      || tasks[i].partNum - 1 in config.existing(tasks[i].bin)
      || (tasks[i].partNum == 0 && config.existing(tasks[i].bin) == [])
      || exists j :: 0 <= j < |tasks| && tasks[j].bin == tasks[i].bin && tasks[j].partNum == tasks[i].partNum - 1
  {
    hide BinsInOrder;
    hide AllTasks;
    hide InBin;
    hide RealBins;
    var groupedByBin, order := GroupSamplesByBin(config.find, samples);
    tasks, allBins, numDroppedSamples := TasksOfBins(config, samples, groupedByBin, order);
    forall i | 0 <= i < |tasks|
      ensures forall p :: p in config.existing(tasks[i].bin) ==> p < tasks[i].partNum
      ensures || tasks[i].partNum - 1 in config.existing(tasks[i].bin)
              || (tasks[i].partNum == 0 && config.existing(tasks[i].bin) == [])
              || exists j :: 0 <= j < |tasks| && tasks[j].bin == tasks[i].bin
                             && tasks[j].partNum == tasks[i].partNum - 1
    {
      PartsAreNew(config, samples, order, i);
      PartsContinue(config, samples, order, i);
    }
  }

  /** The loop over the bins. */
  method TasksOfBins<B(==)>(config: Config<B>, ghost samples: seq<Sample>, groupedByBin: map<Option<B>, seq<Sample>>,
                            order: seq<Option<B>>)
      returns (tasks: seq<ShardTask<B>>, allBins: seq<B>, numDroppedSamples: nat)
    requires order == BinsInOrder(config.find, samples)
    requires forall bin :: bin in order ==> bin in groupedByBin && groupedByBin[bin] == InBin(config.find, samples, bin)
    ensures tasks == AllTasks(config, samples, order)
    ensures allBins == RealBins(order)
    ensures numDroppedSamples == |InBin(config.find, samples, None)|
  {
    assert TasksOfEntry(config, samples, None) == [];
    hide TasksOfEntry;
    hide InBin;
    hide BinsInOrder;
    tasks, allBins, numDroppedSamples := [], [], 0;
    BinsInOrderFacts(config.find, samples);
    assert order[..0] == [] && AllTasks(config, samples, []) == [] && RealBins<B>([]) == [];
    hide AllTasks;
    hide RealBins;
    hide NoDuplicates;
    for i := 0 to |order|
      invariant tasks == AllTasks(config, samples, order[..i])
      invariant allBins == RealBins(order[..i])
      invariant numDroppedSamples == if None in order[..i] then |InBin(config.find, samples, None)| else 0
    {
      BinStep(config, samples, order, i);
      var binned := groupedByBin[order[i]];
      if order[i].None? {
        numDroppedSamples := numDroppedSamples + |binned|;
        continue;
      }
      var lbin := order[i].value;
      allBins := allBins + [lbin];
      var binTasks := MakeTasksOfBin(config, samples, lbin, binned);
      tasks := tasks + binTasks;
    }
    assert order[..|order|] == order;
  }

  // ----- what the numbering guarantees -----

  lemma EntryFacts<B>(config: Config<B>, samples: seq<Sample>, entry: Option<B>, k: nat)
    requires k < |TasksOfEntry(config, samples, entry)|
    ensures var task := TasksOfEntry(config, samples, entry)[k];
            && entry == Some(task.bin)
            && MaxPart(config.existing(task.bin)) < task.partNum
    ensures forall m :: 0 <= m < k ==>
      var a, b := TasksOfEntry(config, samples, entry)[m], TasksOfEntry(config, samples, entry)[k];
      (a.partNum, a.tarIdx) != (b.partNum, b.tarIdx)
  {
    hide PartOf;
    hide TarOf;
    forall m | 0 <= m < k
      ensures PartOf(m, config.TarsPerPart()) != PartOf(k, config.TarsPerPart())
              || TarOf(m, config.TarsPerPart()) != TarOf(k, config.TarsPerPart())
    {
      Placement(m, config.TarsPerPart());
      Placement(k, config.TarsPerPart());
    }
  }

  /** Every task belongs to one of the bins in order, and its part is newer than all stored ones. */
  lemma {:induction false} PartsAreNew<B>(config: Config<B>, samples: seq<Sample>, order: seq<Option<B>>, i: nat)
    requires i < |AllTasks(config, samples, order)|
    ensures var task := AllTasks(config, samples, order)[i];
            && Some(task.bin) in order
            && forall p :: p in config.existing(task.bin) ==> p < task.partNum
  {
    hide TasksOfEntry;
    var init := order[..|order| - 1];
    var n := |AllTasks(config, samples, init)|;
    if i < n {
      PartsAreNew(config, samples, init, i);
    } else {
      EntryFacts(config, samples, order[|order| - 1], i - n);
    }
  }

  /** No two tasks write the same tar. */
  lemma {:induction false} TarsAreDistinct<B>(config: Config<B>, samples: seq<Sample>, order: seq<Option<B>>,
                                              i: nat, j: nat)
    requires NoDuplicates(order) && i < j < |AllTasks(config, samples, order)|
    ensures var a, b := AllTasks(config, samples, order)[i], AllTasks(config, samples, order)[j];
            (a.bin, a.partNum, a.tarIdx) != (b.bin, b.partNum, b.tarIdx)
  {
    hide TasksOfEntry;
    var init := order[..|order| - 1];
    var n := |AllTasks(config, samples, init)|;
    if j < n {
      TarsAreDistinct(config, samples, init, i, j);
    } else {
      EntryFacts(config, samples, order[|order| - 1], j - n);
      if i < n {
        PartsAreNew(config, samples, init, i);
      }
    }
  }

  /** In a bin every part but the last holds exactly the allowed number of tars, numbered from 0. */
  lemma PartsAreFull<B>(bin: B, start: int, full: nat, tars: seq<seq<Sample>>, part: int, tar: nat)
    requires full >= 1 && tars != []
    requires start <= part < TasksOfBin(bin, start, full, tars)[|tars| - 1].partNum && tar < full
    ensures var k := (part - start) * full + tar; var tasks := TasksOfBin(bin, start, full, tars);
            0 <= k < |tasks| && tasks[k].partNum == part && tasks[k].tarIdx == tar
  {
    hide PartOf;
    hide TarOf;
    var p, last := part - start, |tars| - 1;
    PlacementIsUnique(p, tar, full);
    Placement(last, full);
    AtLeastOnce(PartOf(last, full) - p, full);
    assert PartOf(last, full) * full == (PartOf(last, full) - p) * full + p * full;
    assert p * full >= 0;
  }

  /** Where a task comes from: its bin's place in the order, and its place in the bin. */
  lemma {:induction false} Locate<B>(config: Config<B>, samples: seq<Sample>, order: seq<Option<B>>, i: nat)
      returns (e: nat, k: nat)
    requires i < |AllTasks(config, samples, order)|
    ensures e < |order| && k < |TasksOfEntry(config, samples, order[e])|
    ensures TasksOfEntry(config, samples, order[e])[k] == AllTasks(config, samples, order)[i]
    ensures order[e] == Some(AllTasks(config, samples, order)[i].bin)
  {
    hide TasksOfEntry;
    var init := order[..|order| - 1];
    var n := |AllTasks(config, samples, init)|;
    if i < n {
      e, k := Locate(config, samples, init, i);
    } else {
      e, k := |order| - 1, i - n;
      EntryFacts(config, samples, order[e], k);
    }
  }

  /** Every task of a listed bin is among all tasks. */
  lemma {:induction false} Listed<B>(config: Config<B>, samples: seq<Sample>, order: seq<Option<B>>, e: nat, k: nat)
      returns (i: nat)
    requires e < |order| && k < |TasksOfEntry(config, samples, order[e])|
    ensures i < |AllTasks(config, samples, order)|
    ensures AllTasks(config, samples, order)[i] == TasksOfEntry(config, samples, order[e])[k]
  {
    hide TasksOfEntry;
    var init := order[..|order| - 1];
    if e < |order| - 1 {
      i := Listed(config, samples, init, e, k);
    } else {
      i := |AllTasks(config, samples, init)| + k;
    }
  }

  /** The samples of the tasks of a bin, in the order of the tasks. */
  function SamplesInBin<B(==)>(tasks: seq<ShardTask<B>>, bin: B): seq<Sample> {
    if tasks == [] then []
    else
      SamplesInBin(tasks[..|tasks| - 1], bin)
      + if tasks[|tasks| - 1].bin == bin then tasks[|tasks| - 1].samples else []
  }

  lemma SamplesInBinAppend<B>(tasks: seq<ShardTask<B>>, task: ShardTask<B>, bin: B)
    ensures SamplesInBin(tasks + [task], bin) == SamplesInBin(tasks, bin) + if task.bin == bin then task.samples else []
  {
    assert (tasks + [task])[..|tasks|] == tasks;
  }

  lemma {:induction false} SamplesInBinConcat<B>(a: seq<ShardTask<B>>, b: seq<ShardTask<B>>, bin: B)
    ensures SamplesInBin(a + b, bin) == SamplesInBin(a, bin) + SamplesInBin(b, bin)
  {
    if b == [] {
      assert a + b == a;
    } else {
      var init, last := b[..|b| - 1], b[|b| - 1];
      SamplesInBinConcat(a, init, bin);
      SamplesInBinAppend(a + init, last, bin);
      SamplesInBinAppend(init, last, bin);
      assert b == init + [last] && a + b == a + init + [last];
      hide SamplesInBin;
      Associative(SamplesInBin(a, bin), SamplesInBin(init, bin), if last.bin == bin then last.samples else []);
    }
  }

  lemma Associative<T>(a: seq<T>, b: seq<T>, c: seq<T>)
    ensures a + b + c == a + (b + c)
  {
  }

  lemma {:induction false} SamplesOfTars<B>(own: B, start: int, full: nat, tars: seq<seq<Sample>>, bin: B)
    requires full >= 1
    ensures SamplesInBin(TasksOfBin(own, start, full, tars), bin) == if own == bin then Grouping.Flatten(tars) else []
  {
    if tars != [] {
      var init, last := tars[..|tars| - 1], tars[|tars| - 1];
      SamplesOfTars(own, start, full, init, bin);
      var task := LastTask(own, start, full, tars);
      assert task.bin == TasksOfBin(own, start, full, tars)[|tars| - 1].bin == own;
      SamplesInBinAppend(TasksOfBin(own, start, full, init), task, bin);
      hide TasksOfBin;
      hide SamplesInBin;
      Grouping.FlattenAppend(init, last);
      assert tars == init + [last];
      hide Grouping.Flatten;
    }
  }

  /** The tasks of a listed bin hold, in order, the samples of that bin, but for what it has lost at its end. */
  lemma {:induction false} TasksKeepOrder<B>(config: Config<B>, samples: seq<Sample>, order: seq<Option<B>>, bin: B)
    requires NoDuplicates(order)
    ensures Some(bin) !in order ==> SamplesInBin(AllTasks(config, samples, order), bin) == []
    ensures Some(bin) in order ==>
      SamplesInBin(AllTasks(config, samples, order), bin) + Lost(config, samples, bin)
      == InBin(config.find, samples, Some(bin))
  {
    if order != [] {
      var init, last := order[..|order| - 1], order[|order| - 1];
      assert order == init + [last] && last !in init;
      TasksKeepOrder(config, samples, init, bin);
      EntryAdds(config, samples, init, last, bin);
      EntryKeepsOrder(config, samples, last, bin);
      assert Some(bin) in order <==> Some(bin) in init || last == Some(bin);
      hide NoDuplicates;
      hide SamplesInBin;
      hide AllTasks;
      hide TasksOfEntry;
      hide Lost;
      hide InBin;
      if last == Some(bin) {
        NothingInFront(SamplesInBin(AllTasks(config, samples, init), bin),
                       SamplesInBin(TasksOfEntry(config, samples, last), bin));
      } else {
        NothingBehind(SamplesInBin(AllTasks(config, samples, init), bin),
                      SamplesInBin(TasksOfEntry(config, samples, last), bin));
      }
    }
  }

  lemma NothingInFront<T>(a: seq<T>, b: seq<T>)
    requires a == []
    ensures a + b == b
  {
  }

  lemma NothingBehind<T>(a: seq<T>, b: seq<T>)
    requires b == []
    ensures a + b == a
  {
  }

  lemma EntryAdds<B>(config: Config<B>, samples: seq<Sample>, init: seq<Option<B>>, last: Option<B>, bin: B)
    ensures SamplesInBin(AllTasks(config, samples, init + [last]), bin) ==
            SamplesInBin(AllTasks(config, samples, init), bin) + SamplesInBin(TasksOfEntry(config, samples, last), bin)
  {
    assert (init + [last])[..|init|] == init;
    SamplesInBinConcat(AllTasks(config, samples, init), TasksOfEntry(config, samples, last), bin);
    hide SamplesInBin;
  }

  lemma EntryKeepsOrder<B>(config: Config<B>, samples: seq<Sample>, entry: Option<B>, bin: B)
    ensures entry == Some(bin) ==>
      SamplesInBin(TasksOfEntry(config, samples, entry), bin) + Lost(config, samples, bin)
      == InBin(config.find, samples, Some(bin))
    ensures entry != Some(bin) ==> SamplesInBin(TasksOfEntry(config, samples, entry), bin) == []
  {
    hide TasksOfBin;
    hide SamplesInBin;
    hide InBin;
    hide Lost;
    if entry.Some? {
      SamplesOfTars(entry.value, MaxPart(config.existing(entry.value)) + 1, config.TarsPerPart(),
                    config.Tars(samples, entry.value), bin);
      BinIsConserved(config, samples, entry.value);
    } else {
      NoTasks<B>(bin);
    }
  }

  lemma NoTasks<B>(bin: B)
    ensures SamplesInBin([], bin) == []
  {
  }

  /** Every tar holds one sample, or several within the target size, and at least one. */
  lemma TarsFit<B>(config: Config<B>, samples: seq<Sample>, order: seq<Option<B>>, i: nat)
    requires i < |AllTasks(config, samples, order)|
    ensures var tar := AllTasks(config, samples, order)[i].samples;
            |tar| == 1 || (|tar| > 1 && SizeOf(tar) <= config.targetTarSizeBytes)
  {
    var e, k := Locate(config, samples, order, i);
    BinIsConserved(config, samples, order[e].value);
    hide AllTasks;
    hide SizeOf;
  }

  lemma NextPart(k: nat, full: nat)
    requires full >= 1
    ensures k < full ==> PartOf(k, full) == 0
    ensures k >= full ==> PartOf(k, full) == PartOf(k - full, full) + 1
  {
    if k >= full {
      Placement(k - full, full);
      assert (PartOf(k - full, full) + 1) * full == PartOf(k - full, full) * full + full;
      PlacementIsUnique(PartOf(k - full, full) + 1, TarOf(k - full, full), full);
    } else {
      assert 0 * full + k == k;
      PlacementIsUnique(0, k, full);
    }
  }

  lemma EntryContinues<B>(config: Config<B>, samples: seq<Sample>, entry: Option<B>, k: nat)
    requires k < |TasksOfEntry(config, samples, entry)|
    ensures var tasks := TasksOfEntry(config, samples, entry); var task := tasks[k];
            || task.partNum - 1 in config.existing(task.bin)
            || (task.partNum == 0 && config.existing(task.bin) == [])
            || (config.TarsPerPart() <= k && tasks[k - config.TarsPerPart()].bin == task.bin
                && tasks[k - config.TarsPerPart()].partNum == task.partNum - 1)
  {
    hide MaxPart;
    hide Kept;
    hide PartOf;
    hide TarOf;
    NextPart(k, config.TarsPerPart());
  }

  /**
   The parts of a bin continue the stored ones without a gap: in front of the part of each task is
   a stored part or the part of another task, or the task is in part 0 and nothing is stored.
   */
  lemma PartsContinue<B>(config: Config<B>, samples: seq<Sample>, order: seq<Option<B>>, i: nat)
    requires i < |AllTasks(config, samples, order)|
    ensures var tasks := AllTasks(config, samples, order);
            || tasks[i].partNum - 1 in config.existing(tasks[i].bin)
            || (tasks[i].partNum == 0 && config.existing(tasks[i].bin) == [])
            || exists j :: 0 <= j < |tasks| && tasks[j].bin == tasks[i].bin && tasks[j].partNum == tasks[i].partNum - 1
  {
    hide AllTasks;
    hide TasksOfEntry;
    var e, k := Locate(config, samples, order, i);
    EntryContinues(config, samples, order[e], k);
    if config.TarsPerPart() <= k {
      var j := Listed(config, samples, order, e, k - config.TarsPerPart());
    }
  }

  lemma PartOfIsMonotonic(a: nat, b: nat, full: nat)
    requires full >= 1 && a <= b
    ensures PartOf(a, full) <= PartOf(b, full)
  {
    hide PartOf;
    hide TarOf;
    Placement(a, full);
    Placement(b, full);
    var d := PartOf(a, full) - PartOf(b, full);
    assert PartOf(a, full) * full == PartOf(b, full) * full + d * full;
    if d >= 1 {
      AtLeastOnce(d, full);
    }
  }

  lemma EntryIsFull<B>(config: Config<B>, samples: seq<Sample>, entry: Option<B>, k: nat, m: nat, tar: nat)
      returns (n: nat)
    requires k < |TasksOfEntry(config, samples, entry)| && m < |TasksOfEntry(config, samples, entry)|
    requires TasksOfEntry(config, samples, entry)[k].partNum < TasksOfEntry(config, samples, entry)[m].partNum
    requires tar < config.TarsPerPart()
    ensures var tasks := TasksOfEntry(config, samples, entry);
            n < |tasks| && tasks[n].bin == tasks[k].bin && tasks[n].partNum == tasks[k].partNum
            && tasks[n].tarIdx == tar
  {
    hide PartOf;
    hide TarOf;
    hide MaxPart;
    hide Kept;
    var bin, full := entry.value, config.TarsPerPart();
    var start, tars := MaxPart(config.existing(bin)) + 1, config.Tars(samples, bin);
    PartOfIsMonotonic(m, |tars| - 1, full);
    var part := start + PartOf(k, full);
    PartsAreFull(bin, start, full, tars, part, tar);
    n := (part - start) * full + tar;
  }

  /** Of the parts a bin gets, each but the last holds exactly the tars 0 up to the maximum, and none holds more. */
  lemma PartsHoldMaximum<B>(config: Config<B>, samples: seq<Sample>, order: seq<Option<B>>, i: nat, j: nat, tar: nat)
    requires config.maxTarsPerPart >= 1 && NoDuplicates(order)
    requires i < |AllTasks(config, samples, order)| && j < |AllTasks(config, samples, order)|
    ensures AllTasks(config, samples, order)[i].tarIdx < config.maxTarsPerPart
    ensures var tasks := AllTasks(config, samples, order);
            tasks[i].bin == tasks[j].bin && tasks[i].partNum < tasks[j].partNum && tar < config.maxTarsPerPart ==>
              exists n :: 0 <= n < |tasks| && tasks[n].bin == tasks[i].bin
                          && tasks[n].partNum == tasks[i].partNum && tasks[n].tarIdx == tar
  {
    var tasks := AllTasks(config, samples, order);
    var e, k := Locate(config, samples, order, i);
    var f, m := Locate(config, samples, order, j);
    assert TasksOfEntry(config, samples, order[e])[k].tarIdx < config.TarsPerPart();
    hide AllTasks;
    hide TasksOfEntry;
    if tasks[i].bin == tasks[j].bin && tasks[i].partNum < tasks[j].partNum && tar < config.maxTarsPerPart {
      assert e == f;
      var n := EntryIsFull(config, samples, order[e], k, m, tar);
      var l := Listed(config, samples, order, e, n);
    }
  }

  /** A bin is listed if and only if some sample falls into it, and once. */
  lemma {:induction false} RealBinsFacts<B>(order: seq<Option<B>>)
    requires NoDuplicates(order)
    ensures NoDuplicates(RealBins(order))
    ensures forall bin :: bin in RealBins(order) <==> Some(bin) in order
  {
    if order != [] {
      var init, last := order[..|order| - 1], order[|order| - 1];
      assert order == init + [last] && last !in init;
      RealBinsFacts(init);
    }
  }

  // ----- conservation -----

  /** All samples of the tasks, each as often as it occurs in them. */
  function SamplesOf<B>(tasks: seq<ShardTask<B>>): multiset<Sample> {
    if tasks == [] then multiset{} else SamplesOf(tasks[..|tasks| - 1]) + multiset(tasks[|tasks| - 1].samples)
  }

  /** The guard under which the packer gives up the last group of a bin. */
  predicate LastGroupIsDropped<B(==)>(config: Config<B>, samples: seq<Sample>, bin: B) {
    var packed := config.Packed(samples, bin);
    config.dropSmallShards && packed != [] && |packed[|packed| - 1]| < config.minClipsPerTar
  }

  /** The samples of a bin that go into no tar. */
  function Lost<B(==)>(config: Config<B>, samples: seq<Sample>, bin: B): seq<Sample> {
    if LastGroupIsDropped(config, samples, bin)
    then var packed := config.Packed(samples, bin); packed[|packed| - 1]
    else []
  }

  /** The tars of a bin followed by its lost samples are the bin, and it loses samples exactly under the guard. */
  lemma BinIsConserved<B>(config: Config<B>, samples: seq<Sample>, bin: B)
    ensures Grouping.Flatten(config.Tars(samples, bin)) + Lost(config, samples, bin) ==
            InBin(config.find, samples, Some(bin))
    ensures Lost(config, samples, bin) != [] <==> LastGroupIsDropped(config, samples, bin)
    ensures LastGroupIsDropped(config, samples, bin) ==> 1 <= |Lost(config, samples, bin)| < config.minClipsPerTar
    ensures Greedy(config.Tars(samples, bin), config.targetTarSizeBytes)
  {
    var packed := config.Packed(samples, bin);
    PackKeepsSamples(InBin(config.find, samples, Some(bin)), config.targetTarSizeBytes);
    PackIsGreedy(InBin(config.find, samples, Some(bin)), config.targetTarSizeBytes);
    hide Pack;
    hide InBin;
    if LastGroupIsDropped(config, samples, bin) {
      GreedyWithoutLast(packed, config.targetTarSizeBytes);
      hide Greedy;
      Grouping.FlattenAppend(packed[..|packed| - 1], packed[|packed| - 1]);
      assert packed == packed[..|packed| - 1] + [packed[|packed| - 1]];
      hide Grouping.Flatten;
    }
  }

  lemma GreedyWithoutLast(groups: seq<seq<Sample>>, target: int)
    requires Greedy(groups, target) && groups != []
    ensures Greedy(groups[..|groups| - 1], target) && groups[|groups| - 1] != []
  {
    hide SizeOf;
    hide Fits;
  }

  /** All samples lost in the given bins. */
  function LostOf<B(==)>(config: Config<B>, samples: seq<Sample>, order: seq<Option<B>>): multiset<Sample> {
    if order == [] then multiset{}
    else
      LostOf(config, samples, order[..|order| - 1]) +
      match order[|order| - 1]
      case None => multiset{}
      case Some(bin) => multiset(Lost(config, samples, bin))
  }

  /** The samples of the given bins. */
  function Binned<B(==)>(
      find: (int, int, real) -> Option<B>, samples: seq<Sample>, order: seq<Option<B>>): multiset<Sample>
  {
    if order == [] then multiset{}
    else Binned(find, samples, order[..|order| - 1]) + multiset(InBin(find, samples, order[|order| - 1]))
  }

  lemma {:induction false} SamplesOfBin<B>(
      before: seq<ShardTask<B>>, bin: B, start: int, full: nat, tars: seq<seq<Sample>>)
    requires full >= 1
    ensures SamplesOf(before + TasksOfBin(bin, start, full, tars)) ==
            SamplesOf(before) + multiset(Grouping.Flatten(tars))
  {
    if tars == [] {
      assert before + TasksOfBin(bin, start, full, tars) == before;
    } else {
      var init, last := tars[..|tars| - 1], tars[|tars| - 1];
      var task := LastTask(bin, start, full, tars);
      SamplesOfBin(before, bin, start, full, init);
      FlattenLast(tars);
      hide TasksOfBin;
      hide Grouping.Flatten;
      SamplesOfAppend(before, TasksOfBin(bin, start, full, init), task);
      hide SamplesOf;
    }
  }

  lemma LastTask<B>(bin: B, start: int, full: nat, tars: seq<seq<Sample>>) returns (task: ShardTask<B>)
    requires full >= 1 && tars != []
    ensures task.samples == tars[|tars| - 1]
    ensures TasksOfBin(bin, start, full, tars) == TasksOfBin(bin, start, full, tars[..|tars| - 1]) + [task]
  {
    hide PartOf;
    hide TarOf;
    task := TasksOfBin(bin, start, full, tars)[|tars| - 1];
  }

  lemma FlattenLast(tars: seq<seq<Sample>>)
    requires tars != []
    ensures multiset(Grouping.Flatten(tars)) ==
            multiset(Grouping.Flatten(tars[..|tars| - 1])) + multiset(tars[|tars| - 1])
  {
    var init, last := tars[..|tars| - 1], tars[|tars| - 1];
    assert tars == init + [last];
    Grouping.FlattenAppend(init, last);
  }

  lemma SamplesOfAppend<B>(before: seq<ShardTask<B>>, tasks: seq<ShardTask<B>>, task: ShardTask<B>)
    ensures SamplesOf(before + (tasks + [task])) == SamplesOf(before + tasks) + multiset(task.samples)
  {
    assert before + (tasks + [task]) == before + tasks + [task];
    assert (before + tasks + [task])[..|before + tasks|] == before + tasks;
  }

  /** Adding a sample adds it to exactly one bin. */
  lemma {:induction false} OneMoreSample<B>(
      find: (int, int, real) -> Option<B>, samples: seq<Sample>, s: Sample, order: seq<Option<B>>)
    requires NoDuplicates(order)
    ensures Binned(find, samples + [s], order) ==
            Binned(find, samples, order) + if BinOf(find, s) in order then multiset{s} else multiset{}
  {
    if order != [] {
      var init, last := order[..|order| - 1], order[|order| - 1];
      OneMoreSample(find, samples, s, init);
      assert order == init + [last] && last !in init;
      OneMoreSampleStep(find, samples, s, init, last);
      hide Binned;
      hide NoDuplicates;
    }
  }

  lemma OneMoreSampleStep<B>(
      find: (int, int, real) -> Option<B>, samples: seq<Sample>, s: Sample, init: seq<Option<B>>, last: Option<B>)
    requires last !in init
    requires Binned(find, samples + [s], init) ==
             Binned(find, samples, init) + if BinOf(find, s) in init then multiset{s} else multiset{}
    ensures Binned(find, samples + [s], init + [last]) ==
            Binned(find, samples, init + [last]) + if BinOf(find, s) in init + [last] then multiset{s} else multiset{}
  {
    OneMoreInBin(find, samples, s, last);
    BinnedAppend(find, samples, init, last);
    BinnedAppend(find, samples + [s], init, last);
    hide Binned;
    hide InBin;
    hide BinOf;
    AddOnce(Binned(find, samples, init), multiset(InBin(find, samples, last)), s,
            BinOf(find, s) in init, BinOf(find, s) == last);
  }

  lemma BinnedAppend<B>(
      find: (int, int, real) -> Option<B>, samples: seq<Sample>, init: seq<Option<B>>, last: Option<B>)
    ensures Binned(find, samples, init + [last]) == Binned(find, samples, init) + multiset(InBin(find, samples, last))
  {
    assert (init + [last])[..|init|] == init;
  }

  lemma AddOnce<T>(a: multiset<T>, b: multiset<T>, t: T, inA: bool, inB: bool)
    requires !(inA && inB)
    ensures (a + if inA then multiset{t} else multiset{}) + (b + if inB then multiset{t} else multiset{})
            == (a + b) + if inA || inB then multiset{t} else multiset{}
  {
  }

  lemma OneMoreInBin<B>(find: (int, int, real) -> Option<B>, samples: seq<Sample>, s: Sample, bin: Option<B>)
    ensures multiset(InBin(find, samples + [s], bin)) ==
            multiset(InBin(find, samples, bin)) + if BinOf(find, s) == bin then multiset{s} else multiset{}
  {
    assert (samples + [s])[..|samples|] == samples;
  }

  lemma {:induction false} BinsCoverSamples<B>(
      find: (int, int, real) -> Option<B>, samples: seq<Sample>, order: seq<Option<B>>)
    requires NoDuplicates(order)
    requires forall s :: s in samples ==> BinOf(find, s) in order
    ensures Binned(find, samples, order) == multiset(samples)
  {
    if samples == [] {
      NothingBinned(find, order);
    } else {
      var init, s := samples[..|samples| - 1], samples[|samples| - 1];
      assert samples == init + [s];
      BinsCoverSamples(find, init, order);
      OneMoreSample(find, init, s, order);
    }
  }

  lemma {:induction false} NothingBinned<B>(find: (int, int, real) -> Option<B>, order: seq<Option<B>>)
    ensures Binned(find, [], order) == multiset{}
  {
    if order != [] {
      NothingBinned(find, order[..|order| - 1]);
    }
  }

  lemma {:induction false} EveryBinOccurs<B>(find: (int, int, real) -> Option<B>, samples: seq<Sample>)
    ensures forall s :: s in samples ==> BinOf(find, s) in BinsInOrder(find, samples)
  {
    if samples != [] {
      EveryBinOccurs(find, samples[..|samples| - 1]);
      assert samples == samples[..|samples| - 1] + [samples[|samples| - 1]];
    }
  }

  /** The samples of the given bins are in their tasks, outside all bins, or lost. */
  ghost predicate BinsBalance<B>(config: Config<B>, samples: seq<Sample>, order: seq<Option<B>>) {
    SamplesOf(AllTasks(config, samples, order)) + LostOf(config, samples, order)
    + (if None in order then multiset(InBin(config.find, samples, None)) else multiset{})
    == Binned(config.find, samples, order)
  }

  lemma {:induction false} BinsAreConserved<B>(config: Config<B>, samples: seq<Sample>, order: seq<Option<B>>)
    requires NoDuplicates(order)
    ensures BinsBalance(config, samples, order)
  {
    if order != [] {
      var init, last := order[..|order| - 1], order[|order| - 1];
      assert order == init + [last] && last !in init;
      BinsAreConserved(config, samples, init);
      hide BinsBalance;
      hide NoDuplicates;
      if last == None {
        NoneBalances(config, samples, init);
      } else {
        SomeBalances(config, samples, init, last.value);
      }
    }
  }

  lemma NoneBalances<B>(config: Config<B>, samples: seq<Sample>, init: seq<Option<B>>)
    requires BinsBalance(config, samples, init) && None !in init
    ensures BinsBalance(config, samples, init + [None])
  {
    NoneAddsNothing(config, samples, init);
    assert None in init + [None];
    hide SamplesOf;
    hide AllTasks;
    hide LostOf;
    hide Binned;
    hide InBin;
  }

  lemma SomeBalances<B>(config: Config<B>, samples: seq<Sample>, init: seq<Option<B>>, bin: B)
    requires BinsBalance(config, samples, init)
    ensures BinsBalance(config, samples, init + [Some(bin)])
  {
    var before, after := AllTasks(config, samples, init), AllTasks(config, samples, init + [Some(bin)]);
    EntryIsConserved(config, samples, before, bin);
    SomeAdds(config, samples, init, bin);
    assert None in init + [Some(bin)] <==> None in init;
    var unbinned := if None in init then multiset(InBin(config.find, samples, None)) else multiset{};
    hide SamplesOf;
    hide AllTasks;
    hide LostOf;
    hide Binned;
    hide InBin;
    hide Lost;
    hide TasksOfEntry;
    Rearranged(SamplesOf(before), LostOf(config, samples, init), unbinned, SamplesOf(after),
               multiset(Lost(config, samples, bin)), multiset(InBin(config.find, samples, Some(bin))));
  }

  lemma Rearranged<T>(
      a: multiset<T>, lost: multiset<T>, rest: multiset<T>, a': multiset<T>, l: multiset<T>, b: multiset<T>)
    requires a' + l == a + b
    ensures a' + (lost + l) + rest == (a + lost + rest) + b
  {
    assert a' + (lost + l) + rest == (a' + l) + lost + rest;
  }

  lemma NoneAddsNothing<B>(config: Config<B>, samples: seq<Sample>, init: seq<Option<B>>)
    ensures AllTasks(config, samples, init + [None]) == AllTasks(config, samples, init)
    ensures LostOf(config, samples, init + [None]) == LostOf(config, samples, init)
    ensures Binned(config.find, samples, init + [None]) ==
            Binned(config.find, samples, init) + multiset(InBin(config.find, samples, None))
  {
    assert (init + [None])[..|init|] == init;
    BinnedAppend(config.find, samples, init, None);
  }

  lemma SomeAdds<B>(config: Config<B>, samples: seq<Sample>, init: seq<Option<B>>, bin: B)
    ensures AllTasks(config, samples, init + [Some(bin)]) ==
            AllTasks(config, samples, init) + TasksOfEntry(config, samples, Some(bin))
    ensures LostOf(config, samples, init + [Some(bin)]) ==
            LostOf(config, samples, init) + multiset(Lost(config, samples, bin))
    ensures Binned(config.find, samples, init + [Some(bin)]) ==
            Binned(config.find, samples, init) + multiset(InBin(config.find, samples, Some(bin)))
  {
    assert (init + [Some(bin)])[..|init|] == init;
    BinnedAppend(config.find, samples, init, Some(bin));
  }

  lemma EntryIsConserved<B>(config: Config<B>, samples: seq<Sample>, before: seq<ShardTask<B>>, bin: B)
    ensures SamplesOf(before + TasksOfEntry(config, samples, Some(bin))) + multiset(Lost(config, samples, bin))
            == SamplesOf(before) + multiset(InBin(config.find, samples, Some(bin)))
  {
    SamplesOfBin(before, bin, MaxPart(config.existing(bin)) + 1, config.TarsPerPart(), config.Tars(samples, bin));
    BinIsConserved(config, samples, bin);
    hide TasksOfBin;
    hide Lost;
  }

  /** The guard fires for none of the given bins. */
  predicate NoGroupIsDropped<B(==)>(config: Config<B>, samples: seq<Sample>, order: seq<Option<B>>) {
    forall k :: 0 <= k < |order| && order[k].Some? ==> !LastGroupIsDropped(config, samples, order[k].value)
  }

  lemma {:induction false} NothingLostIff<B>(config: Config<B>, samples: seq<Sample>, order: seq<Option<B>>)
    ensures |LostOf(config, samples, order)| == 0 <==> NoGroupIsDropped(config, samples, order)
  {
    if order != [] {
      var init, last := order[..|order| - 1], order[|order| - 1];
      assert order == init + [last];
      NothingLostIff(config, samples, init);
      LostStep(config, samples, init, last);
      DroppedStep(config, samples, init, last);
      hide LostOf;
      hide NoGroupIsDropped;
    }
  }

  lemma DroppedStep<B>(config: Config<B>, samples: seq<Sample>, init: seq<Option<B>>, last: Option<B>)
    ensures NoGroupIsDropped(config, samples, init + [last]) <==>
            NoGroupIsDropped(config, samples, init) && (last.Some? ==> !LastGroupIsDropped(config, samples, last.value))
  {
    hide LastGroupIsDropped;
    var order := init + [last];
    assert order[|init|] == last && forall k :: 0 <= k < |init| ==> order[k] == init[k];
  }

  lemma LostStep<B>(config: Config<B>, samples: seq<Sample>, init: seq<Option<B>>, last: Option<B>)
    ensures |LostOf(config, samples, init + [last])| == 0 <==>
            |LostOf(config, samples, init)| == 0 && (last.Some? ==> !LastGroupIsDropped(config, samples, last.value))
  {
    assert (init + [last])[..|init|] == init;
    if last.Some? {
      BinIsConserved(config, samples, last.value);
      hide LastGroupIsDropped;
      hide Lost;
    }
  }

  /**
   Every sample is, as often as it was given, in a tar, in no bin, or in a dropped last group. The
   reported number of dropped samples leaves those groups out, so it accounts for all samples
   that are in no tar if and only if the packer's guard drops the last group of no bin.
   */
  lemma TasksConserveSamples<B>(config: Config<B>, samples: seq<Sample>)
    ensures var order := BinsInOrder(config.find, samples);
            var tasks, unbinned := AllTasks(config, samples, order), InBin(config.find, samples, None);
            && SamplesOf(tasks) + multiset(unbinned) + LostOf(config, samples, order) == multiset(samples)
            && (|SamplesOf(tasks)| + |unbinned| == |samples| <==> NoGroupIsDropped(config, samples, order))
            && (!config.dropSmallShards || config.minClipsPerTar <= 1 ==> |SamplesOf(tasks)| + |unbinned| == |samples|)
  {
    var order := BinsInOrder(config.find, samples);
    var tasks, unbinned := AllTasks(config, samples, order), InBin(config.find, samples, None);
    SamplesAreConserved(config, samples);
    NothingLostIff(config, samples, order);
    NothingIsDropped(config, samples, order);
    hide SamplesOf;
    hide AllTasks;
    hide LostOf;
    hide InBin;
    hide BinsInOrder;
    hide NoGroupIsDropped;
    assert |SamplesOf(tasks)| + |unbinned| + |LostOf(config, samples, order)| == |multiset(samples)| == |samples|;
  }

  lemma SamplesAreConserved<B>(config: Config<B>, samples: seq<Sample>)
    ensures var order := BinsInOrder(config.find, samples);
            SamplesOf(AllTasks(config, samples, order)) + multiset(InBin(config.find, samples, None))
            + LostOf(config, samples, order) == multiset(samples)
  {
    var order := BinsInOrder(config.find, samples);
    BinsInOrderFacts(config.find, samples);
    EveryBinOccurs(config.find, samples);
    BinsAreConserved(config, samples, order);
    BinsCoverSamples(config.find, samples, order);
    var unbinned := if None in order then multiset(InBin(config.find, samples, None)) else multiset{};
    assert unbinned == multiset(InBin(config.find, samples, None));
    hide NoDuplicates;
    hide SamplesOf;
    hide AllTasks;
    hide LostOf;
    hide Binned;
    hide InBin;
    hide BinsInOrder;
    Swapped(SamplesOf(AllTasks(config, samples, order)), LostOf(config, samples, order), unbinned);
  }

  lemma Swapped<T>(a: multiset<T>, b: multiset<T>, c: multiset<T>)
    ensures a + b + c == a + c + b
  {
  }

  /** Without drop_small_shards, or with a minimum of one sample, no group is dropped. */
  lemma NothingIsDropped<B>(config: Config<B>, samples: seq<Sample>, order: seq<Option<B>>)
    ensures !config.dropSmallShards || config.minClipsPerTar <= 1 ==> NoGroupIsDropped(config, samples, order)
  {
    forall k | 0 <= k < |order| && order[k].Some?
      ensures LastGroupIsDropped(config, samples, order[k].value) ==>
        config.dropSmallShards && config.minClipsPerTar > 1
    {
      BinIsConserved(config, samples, order[k].value);
    }
    hide LastGroupIsDropped;
  }

  /** With small shards dropped below two samples, a lone sample that fits a bin is in no tar and is not counted. */
  lemma UncountedSample<B>(config: Config<B>, sample: Sample)
    requires config.dropSmallShards && config.minClipsPerTar == 2 && BinOf(config.find, sample).Some?
    ensures AllTasks(config, [sample], BinsInOrder(config.find, [sample])) == []
    ensures InBin(config.find, [sample], None) == []
  {
    var entry := BinOf(config.find, sample);
    LoneSample(config.find, sample);
    assert Pack([sample], config.targetTarSizeBytes) == [[sample]] by {
      assert [sample][..0] == [] && Pack([], config.targetTarSizeBytes) == [];
    }
    hide BinsInOrder;
    hide InBin;
    hide Pack;
    assert TasksOfEntry(config, [sample], entry) == [] by {
      assert config.Tars([sample], entry.value) == [];
    }
    hide TasksOfEntry;
    assert [entry][..0] == [] && AllTasks(config, [sample], []) == [];
  }

  lemma LoneSample<B>(find: (int, int, real) -> Option<B>, sample: Sample)
    ensures var bin := BinOf(find, sample);
            && BinsInOrder(find, [sample]) == [bin]
            && InBin(find, [sample], bin) == [sample]
            && (bin != None ==> InBin(find, [sample], None) == [])
  {
    hide BinOf;
    assert [sample][..0] == [];
    assert BinsInOrder(find, []) == [] && InBin(find, [], BinOf(find, sample)) == [] && InBin(find, [], None) == [];
  }
}
