/** What `train()` writes at the end of each epoch: the checkpoint record
    `{epoch, model, optimizer}` and the file it goes to,
    `save_path + "/epoch_" + str(epoch) + ".pt"`. */
module Checkpoints {

  datatype Option<T> = None | Some(value: T)

  /** The model and optimizer state dicts are opaque here; each is represented
      by the number of optimizer steps applied when it was taken. */
  datatype Checkpoint = Checkpoint(epoch: nat, model: nat, optimizer: Option<nat>)

  /** One `torch.save(ckpt, path)`. */
  datatype SavedFile = SavedFile(path: string, ckpt: Checkpoint)

  const EpochPrefix: string := "/epoch_"
  const FileSuffix: string := ".pt"

  predicate IsDigit(c: char)
  {
    '0' <= c <= '9'
  }

  predicate AllDigits(s: string)
  {
    forall i :: 0 <= i < |s| ==> IsDigit(s[i])
  }

  /** A decimal numeral as `str` prints one: at least one digit, no leading zero. */
  predicate Canonical(s: string)
  {
    |s| >= 1 && AllDigits(s) && (s[0] == '0' ==> |s| == 1)
  }

  function DigitChar(d: nat): (c: char)
    requires d < 10
    ensures IsDigit(c) && c as int - '0' as int == d
  {
    ('0' as int + d) as char
  }

  /** `str(n)` for a natural number `n`. */
  function NatToDecimal(n: nat): (s: string)
    ensures Canonical(s)
    ensures s[0] == '0' <==> n == 0
    decreases n
  {
    if n < 10 then [DigitChar(n)]
    else NatToDecimal(n / 10) + [DigitChar(n % 10)]
  }

  /** The number a string of decimal digits denotes. */
  function DecimalValue(s: string): nat
    requires AllDigits(s)
  {
    if s == [] then 0
    else 10 * DecimalValue(s[..|s| - 1]) + (s[|s| - 1] as int - '0' as int)
  }

  /** Reading back what `str` printed gives the number. */
  lemma {:induction false} DecimalRoundTrip(n: nat)
    ensures DecimalValue(NatToDecimal(n)) == n
    decreases n
  {
    var s := NatToDecimal(n);
    if n >= 10 {
      DecimalRoundTrip(n / 10);
      assert s[..|s| - 1] == NatToDecimal(n / 10);
    }
  }

  lemma {:induction false} LeadingDigitPositive(s: string)
    requires AllDigits(s) && |s| >= 1 && s[0] != '0'
    ensures DecimalValue(s) >= 1
    decreases |s|
  {
    if |s| > 1 {
      LeadingDigitPositive(s[..|s| - 1]);
    }
  }

  /** Printing the value of a canonical numeral gives the numeral back. */
  lemma {:induction false} DecimalCanonicalRoundTrip(s: string)
    requires Canonical(s)
    ensures NatToDecimal(DecimalValue(s)) == s
    decreases |s|
  {
    if |s| > 1 {
      var init := s[..|s| - 1];
      var n := DecimalValue(s);
      LeadingDigitPositive(init);
      assert n / 10 == DecimalValue(init) && n % 10 == s[|s| - 1] as int - '0' as int;
      DecimalCanonicalRoundTrip(init);
      assert s == init + [s[|s| - 1]];
    }
  }

  /** The file the checkpoint of `epoch` is written to. */
  function CkptPath(savePath: string, epoch: nat): string
  {
    savePath + EpochPrefix + NatToDecimal(epoch) + FileSuffix
  }

  /** The epoch whose checkpoint is written to `path`, if any. */
  function ParseCkptPath(savePath: string, path: string): Option<nat>
  {
    var lo, hi := |savePath| + |EpochPrefix|, |path| - |FileSuffix|;
    if lo <= hi && path[..|savePath|] == savePath && path[|savePath|..lo] == EpochPrefix
       && path[hi..] == FileSuffix && Canonical(path[lo..hi])
    then Some(DecimalValue(path[lo..hi]))
    else None
  }

  lemma CkptPathParts(savePath: string, epoch: nat)
    ensures var p, lo := CkptPath(savePath, epoch), |savePath| + |EpochPrefix|;
      && |p| == lo + |NatToDecimal(epoch)| + |FileSuffix|
      && p[..|savePath|] == savePath && p[|savePath|..lo] == EpochPrefix
      && p[lo..|p| - |FileSuffix|] == NatToDecimal(epoch) && p[|p| - |FileSuffix|..] == FileSuffix
  {
  }

  /** Parsing the path of epoch `e` gives `e`. */
  lemma ParseCkptPathRoundTrip(savePath: string, epoch: nat)
    ensures ParseCkptPath(savePath, CkptPath(savePath, epoch)) == Some(epoch)
  {
    CkptPathParts(savePath, epoch);
    DecimalRoundTrip(epoch);
  }

  /** A path that parses to `e` is exactly the path of epoch `e`. */
  lemma ParseCkptPathSound(savePath: string, path: string, epoch: nat)
    requires ParseCkptPath(savePath, path) == Some(epoch)
    ensures path == CkptPath(savePath, epoch)
  {
    var lo, hi := |savePath| + |EpochPrefix|, |path| - |FileSuffix|;
    DecimalCanonicalRoundTrip(path[lo..hi]);
    assert path == path[..|savePath|] + path[|savePath|..lo] + path[lo..hi] + path[hi..];
  }

  /** Distinct epochs never share a checkpoint file. */
  lemma CkptPathInjective(savePath: string, e1: nat, e2: nat)
    ensures CkptPath(savePath, e1) == CkptPath(savePath, e2) <==> e1 == e2
  {
    ParseCkptPathRoundTrip(savePath, e1);
    ParseCkptPathRoundTrip(savePath, e2);
  }

  /** The files written by a run that started at `startEpoch` and has finished
      `|log|` epochs: one per epoch in order, each record's `epoch` is the loop
      index, and the optimizer state is left out exactly for the last epoch. */
  predicate IsCheckpointLog(log: seq<SavedFile>, savePath: string, startEpoch: nat, totalEpochs: int)
  {
    forall i :: 0 <= i < |log| ==>
      && log[i].path == CkptPath(savePath, startEpoch + i)
      && log[i].ckpt.epoch == startEpoch + i
      && (log[i].ckpt.optimizer == None <==> startEpoch + i + 1 == totalEpochs)
      && (log[i].ckpt.optimizer != None ==> log[i].ckpt.optimizer.value == log[i].ckpt.model)
  }

  /** Saving the checkpoint of the next epoch extends the log. */
  lemma CheckpointLogSnoc(log: seq<SavedFile>, savePath: string, startEpoch: nat, totalEpochs: int, f: SavedFile)
    requires IsCheckpointLog(log, savePath, startEpoch, totalEpochs)
    requires f.path == CkptPath(savePath, startEpoch + |log|) && f.ckpt.epoch == startEpoch + |log|
    requires f.ckpt.optimizer == None <==> startEpoch + |log| + 1 == totalEpochs
    requires f.ckpt.optimizer != None ==> f.ckpt.optimizer.value == f.ckpt.model
    ensures IsCheckpointLog(log + [f], savePath, startEpoch, totalEpochs)
  {
    var l := log + [f];
    forall i | 0 <= i < |l|
      ensures l[i].path == CkptPath(savePath, startEpoch + i)
    {
      if i < |log| {
        assert l[i] == log[i];
      }
    }
  }

  /** No two checkpoints of a run go to the same file. */
  lemma CheckpointLogPathsDistinct(log: seq<SavedFile>, savePath: string, startEpoch: nat, totalEpochs: int)
    requires IsCheckpointLog(log, savePath, startEpoch, totalEpochs)
    ensures forall i, j :: 0 <= i < j < |log| ==> log[i].path != log[j].path
  {
    forall i, j | 0 <= i < j < |log|
      ensures log[i].path != log[j].path
    {
      CkptPathInjective(savePath, startEpoch + i, startEpoch + j);
    }
  }

  /** Only the checkpoint of the final epoch `totalEpochs - 1` lacks the optimizer state. */
  lemma CheckpointLogOptimizerOnlyLastMissing(log: seq<SavedFile>, savePath: string, startEpoch: nat, totalEpochs: int)
    requires IsCheckpointLog(log, savePath, startEpoch, totalEpochs)
    requires startEpoch + |log| == totalEpochs
    ensures forall i :: 0 <= i < |log| ==> (log[i].ckpt.optimizer == None <==> i == |log| - 1)
  {
  }
}
