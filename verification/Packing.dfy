/** Packing transcripts into files of limited size: next-fit, in order, with a blank line between the
    transcripts of a file and a file of its own for any transcript over the limit. */
module Packing {
  const SEPARATOR := "\n\n"

  /** The content of a file that holds the given transcripts. */
  function Joined(group: seq<string>): string {
    if group == [] then ""
    else if |group| == 1 then group[0]
    else Joined(group[..|group| - 1]) + SEPARATOR + group[|group| - 1]
  }

  function Flatten(groups: seq<seq<string>>): seq<string> {
    if groups == [] then [] else Flatten(groups[..|groups| - 1]) + groups[|groups| - 1]
  }

  /** A file is acceptable if it is within the limit or holds a single transcript that is not. */
  predicate Fits(group: seq<string>, limit: nat) {
    group != [] && (|Joined(group)| <= limit || |group| == 1)
  }

  /** Every transcript in exactly one file, in order, and every file acceptable. */
  predicate IsPacking(groups: seq<seq<string>>, transcripts: seq<string>, limit: nat) {
    Flatten(groups) == transcripts && forall g :: g in groups ==> Fits(g, limit)
  }

  /** The first transcript of `next` would not have fitted into the file of `group`. */
  predicate Apart(group: seq<string>, next: seq<string>, limit: nat) {
    next != [] && |Joined(group)| + 2 + |next[0]| > limit
  }

  /** Every file but the last was closed because the next transcript would not have fitted. */
  ghost predicate Maximal(groups: seq<seq<string>>, limit: nat) {
    forall i, j :: 0 <= i < j < |groups| && j == i + 1 ==> Apart(groups[i], groups[j], limit)
  }

  lemma JoinedSnoc(group: seq<string>, t: string)
    ensures Joined(group + [t]) == (if group == [] then t else Joined(group) + SEPARATOR + t)
  {
    assert (group + [t])[..|group|] == group;
  }

  lemma FlattenSnoc(groups: seq<seq<string>>, group: seq<string>)
    ensures Flatten(groups + [group]) == Flatten(groups) + group
  {
    assert (groups + [group])[..|groups|] == groups;
  }

  /** The packer between two transcripts: `groups` are written and `current` is being filled. */
  ghost predicate Filling(groups: seq<seq<string>>, current: seq<string>, taken: seq<string>, limit: nat) {
    && Flatten(groups) + current == taken
    && (forall g :: g in groups ==> Fits(g, limit))
    && |Joined(current)| <= limit
    && Maximal(groups, limit)
    && (groups != [] ==>
          var last := |Joined(groups[|groups| - 1])|;
          if current == [] then last > limit else last + 2 + |current[0]| > limit)
  }

  /** The packer once it has made room for `t`: no file is being filled, or `t` goes into it. */
  ghost predicate ReadyFor(groups: seq<seq<string>>, current: seq<string>, taken: seq<string>, t: string, limit: nat) {
    if current != [] then Filling(groups, current, taken, limit) && |Joined(current)| + |t| + 2 <= limit
    else
      && Flatten(groups) == taken && Maximal(groups, limit) && (forall g :: g in groups ==> Fits(g, limit))
      && (groups != [] ==> |Joined(groups[|groups| - 1])| + 2 + |t| > limit)
  }

  datatype OutputFile = OutputFile(index: nat, content: string)

  function Numbered(groups: seq<seq<string>>): seq<OutputFile> {
    seq(|groups|, i requires 0 <= i < |groups| => OutputFile(i, Joined(groups[i])))
  }

  lemma NumberedSnoc(groups: seq<seq<string>>, group: seq<string>)
    ensures Numbered(groups + [group]) == Numbered(groups) + [OutputFile(|groups|, Joined(group))]
  {
  }

  lemma JoinedIsEmpty(group: seq<string>)
    requires forall t :: t in group ==> t != ""
    ensures Joined(group) == "" <==> group == []
  {
    if group != [] {
      assert group[|group| - 1] in group;
    }
  }

  /** What the packer has in hand and on disk after taking some transcripts up. */
  ghost predicate Packed(files: seq<OutputFile>, content: string, taken: seq<string>, limit: nat) {
    exists groups, current ::
      Filling(groups, current, taken, limit) && files == Numbered(groups) && content == Joined(current)
      && forall t :: t in current ==> t != ""
  }

  lemma FillingIsPacked(groups: seq<seq<string>>, current: seq<string>, taken: seq<string>, limit: nat)
    requires Filling(groups, current, taken, limit) && forall t :: t in current ==> t != ""
    ensures Packed(Numbered(groups), Joined(current), taken, limit)
  {
  }

  /** The current file is written if `t` does not go into it. */
  lemma Room(files: seq<OutputFile>, content: string, taken: seq<string>, t: string, limit: nat)
    returns (groups: seq<seq<string>>, current: seq<string>)
    requires Packed(files, content, taken, limit)
    ensures ReadyFor(groups, current, taken, t, limit) && forall c :: c in current ==> c != ""
    ensures content != "" && |content| + |t| + 2 > limit ==>
              current == [] && Numbered(groups) == files + [OutputFile(|files|, content)]
    ensures !(content != "" && |content| + |t| + 2 > limit) ==>
              Numbered(groups) == files && Joined(current) == content && (current == [] <==> content == "")
  {
    groups, current :|
      Filling(groups, current, taken, limit) && files == Numbered(groups) && content == Joined(current)
      && forall c :: c in current ==> c != "";
    JoinedIsEmpty(current);
    FlattenSnoc(groups, current);
    assert Flatten(groups) + [] == Flatten(groups);
    if content != "" && |content| + |t| + 2 > limit {
      NumberedSnoc(groups, current);
      groups, current := groups + [current], [];
    }
  }

  /** A transcript over the limit becomes a file of its own. */
  lemma AddLarge(groups: seq<seq<string>>, taken: seq<string>, t: string, limit: nat)
    requires ReadyFor(groups, [], taken, t, limit) && |t| > limit
    ensures Packed(Numbered(groups) + [OutputFile(|groups|, t)], "", taken + [t], limit)
  {
    FlattenSnoc(groups, [t]);
    NumberedSnoc(groups, [t]);
    assert taken + [t] + [] == taken + [t];
    FillingIsPacked(groups + [[t]], [], taken + [t], limit);
  }

  /** Any other transcript starts the current file or goes into it. */
  lemma AddSmall(groups: seq<seq<string>>, current: seq<string>, taken: seq<string>, t: string, limit: nat)
    requires ReadyFor(groups, current, taken, t, limit) && |t| <= limit && t != ""
    requires forall c :: c in current ==> c != ""
    ensures Packed(Numbered(groups), if current == [] then t else Joined(current) + SEPARATOR + t, taken + [t], limit)
  {
    JoinedSnoc(current, t);
    if current == [] {
      assert current + [t] == [t];
    } else {
      assert Flatten(groups) + (current + [t]) == Flatten(groups) + current + [t];
    }
    assert Filling(groups, current + [t], taken + [t], limit);
    FillingIsPacked(groups, current + [t], taken + [t], limit);
  }

  /** Takes one transcript up, writing the files it closes. */
  method PackOne(transcript: string, limit: nat, currentContent: string, files: seq<OutputFile>,
                 ghost taken: seq<string>)
    returns (content: string, outputFiles: seq<OutputFile>)
    requires transcript != "" && Packed(files, currentContent, taken, limit)
    ensures Packed(outputFiles, content, taken + [transcript], limit)
  {
    ghost var groups, current := Room(files, currentContent, taken, transcript, limit);
    content, outputFiles := currentContent, files;
    if |content| > 0 && |content| + |transcript| + 2 > limit {
      outputFiles := outputFiles + [OutputFile(|outputFiles|, content)];
      content := "";
    }
    if |transcript| > limit {
      if |content| > 0 {
        // Never reached: content that is still pending here would have been written above.
        assert false;
      }
      AddLarge(groups, taken, transcript, limit);
      outputFiles := outputFiles + [OutputFile(|outputFiles|, transcript)];
      return;
    }
    AddSmall(groups, current, taken, transcript, limit);
    content := content + (if |content| > 0 then SEPARATOR else "") + transcript;
  }

  /** Packs all transcripts. Each has a header and a footer line, so none is empty. The files hold them
      all, each once and in order, and no other way of doing so needs fewer files. */
  method Pack(transcripts: seq<string>, limit: nat) returns (outputFiles: seq<OutputFile>)
    requires forall t :: t in transcripts ==> t != ""
    ensures exists groups ::
              IsPacking(groups, transcripts, limit) && Maximal(groups, limit) && outputFiles == Numbered(groups)
    ensures forall other :: IsPacking(other, transcripts, limit) ==> |outputFiles| <= |other|
    ensures (|outputFiles| / 2) * (limit - 1) <= TotalLength(outputFiles)
  {
    var currentContent := "";
    outputFiles := [];
    assert Filling([], [], [], limit) && Numbered([]) == [];
    for i := 0 to |transcripts|
      invariant Packed(outputFiles, currentContent, transcripts[..i], limit)
    {
      assert transcripts[i] in transcripts;
      currentContent, outputFiles :=
        PackOne(transcripts[i], limit, currentContent, outputFiles, transcripts[..i]);
      assert transcripts[..i + 1] == transcripts[..i] + [transcripts[i]];
    }
    assert transcripts[..|transcripts|] == transcripts;
    ghost var groups := LastFile(outputFiles, currentContent, transcripts, limit);
    if |currentContent| > 0 {
      outputFiles := outputFiles + [OutputFile(|outputFiles|, currentContent)];
    }
    PackingIsGood(groups, transcripts, limit);
  }

  /** The groups once the content still in hand, if any, has become the last file. */
  lemma LastFile(files: seq<OutputFile>, content: string, transcripts: seq<string>, limit: nat)
    returns (groups: seq<seq<string>>)
    requires Packed(files, content, transcripts, limit)
    ensures IsPacking(groups, transcripts, limit) && Maximal(groups, limit)
    ensures Numbered(groups) == if |content| > 0 then files + [OutputFile(|files|, content)] else files
  {
    var written, current :|
      Filling(written, current, transcripts, limit) && files == Numbered(written) && content == Joined(current)
      && forall t :: t in current ==> t != "";
    groups := written;
    JoinedIsEmpty(current);
    if |content| > 0 {
      FlattenSnoc(groups, current);
      NumberedSnoc(groups, current);
      groups := groups + [current];
    } else {
      assert Flatten(groups) + [] == Flatten(groups);
    }
  }

  lemma PackingIsGood(groups: seq<seq<string>>, transcripts: seq<string>, limit: nat)
    requires IsPacking(groups, transcripts, limit) && Maximal(groups, limit)
    ensures forall other :: IsPacking(other, transcripts, limit) ==> |groups| <= |other|
    ensures (|groups| / 2) * (limit - 1) <= TotalLength(Numbered(groups))
  {
    forall other | IsPacking(other, transcripts, limit)
      ensures |groups| <= |other|
    {
      PackingIsOptimal(groups, other, transcripts, limit);
    }
    FilesAreHalfFull(groups, limit);
  }

  // ---------------------------------------------------------------- how few files

  function Size(group: seq<string>): nat {
    if group == [] then 0 else Size(group[..|group| - 1]) + |group[|group| - 1]| + 2
  }

  lemma {:induction false} JoinedSize(group: seq<string>)
    requires group != []
    ensures |Joined(group)| + 2 == Size(group)
  {
    var n := |group| - 1;
    if n > 0 {
      JoinedSize(group[..n]);
    } else {
      assert group[..n] == [];
    }
  }

  lemma {:induction false} SizeConcat(a: seq<string>, b: seq<string>)
    ensures Size(a + b) == Size(a) + Size(b)
  {
    if b == [] {
      assert a + b == a;
    } else {
      SizeConcat(a, b[..|b| - 1]);
      assert (a + b)[..|a + b| - 1] == a + b[..|b| - 1];
    }
  }

  lemma SizeOfPart(xs: seq<string>, c: nat, a: nat, b: nat, d: nat)
    requires c <= a <= b <= d <= |xs|
    ensures Size(xs[a..b]) <= Size(xs[c..d])
  {
    assert xs[c..d] == xs[c..a] + xs[a..b] + xs[b..d];
    SizeConcat(xs[c..a] + xs[a..b], xs[b..d]);
    SizeConcat(xs[c..a], xs[a..b]);
  }

  /** How many transcripts the first `j` files hold. */
  function Cover(groups: seq<seq<string>>, j: nat): nat
    requires j <= |groups|
  {
    |Flatten(groups[..j])|
  }

  lemma GroupIsSlice(groups: seq<seq<string>>, j: nat)
    requires j < |groups|
    ensures Cover(groups, j) + |groups[j]| == Cover(groups, j + 1) <= |Flatten(groups)|
    ensures Flatten(groups)[Cover(groups, j)..Cover(groups, j + 1)] == groups[j]
  {
    CoverNext(groups, j);
    FlattenIsPrefix(groups, j);
    FlattenIsPrefix(groups, j + 1);
    MiddlePart(Flatten(groups[..j]), groups[j], Flatten(groups));
  }

  lemma CoverNext(groups: seq<seq<string>>, j: nat)
    requires j < |groups|
    ensures Flatten(groups[..j + 1]) == Flatten(groups[..j]) + groups[j]
  {
    assert groups[..j + 1] == groups[..j] + [groups[j]];
    FlattenSnoc(groups[..j], groups[j]);
  }

  lemma {:induction false} FlattenIsPrefix(groups: seq<seq<string>>, j: nat)
    requires j <= |groups|
    ensures Flatten(groups[..j]) <= Flatten(groups)
  {
    if j == |groups| {
      assert groups[..j] == groups;
    } else {
      var init := groups[..|groups| - 1];
      FlattenIsPrefix(init, j);
      assert init[..j] == groups[..j];
      CoverNext(groups, |groups| - 1);
      assert groups[..|groups|] == groups;
    }
  }

  lemma MiddlePart<T>(a: seq<T>, b: seq<T>, whole: seq<T>)
    requires a + b <= whole
    ensures |a| + |b| <= |whole| && whole[|a|..|a| + |b|] == b
  {
    assert whole[..|a| + |b|] == a + b;
    assert whole[|a|..|a| + |b|] == (a + b)[|a|..];
  }

  /** A file of the packer cannot end before a file of another packing that starts no later. */
  lemma FileReachesFar(groups: seq<seq<string>>, other: seq<seq<string>>, transcripts: seq<string>, limit: nat, j: nat)
    requires IsPacking(groups, transcripts, limit) && Maximal(groups, limit) && IsPacking(other, transcripts, limit)
    requires j < |groups| && j < |other| && Cover(other, j) <= Cover(groups, j)
    ensures Cover(other, j + 1) <= Cover(groups, j + 1)
  {
    FileIsBounded(groups, transcripts, limit, j);
    FileIsBounded(other, transcripts, limit, j);
    var a, b, c, d := Cover(groups, j), Cover(groups, j + 1), Cover(other, j), Cover(other, j + 1);
    if b < d {
      OneMoreIsTooMuch(groups, transcripts, limit, j);
      SizeOfPart(transcripts, c, a, b + 1, d);
    }
  }

  /** A file holds a stretch of the transcripts, which is within the limit or a single one. */
  lemma FileIsBounded(groups: seq<seq<string>>, transcripts: seq<string>, limit: nat, j: nat)
    requires IsPacking(groups, transcripts, limit) && j < |groups|
    ensures Cover(groups, j) < Cover(groups, j + 1) <= |transcripts|
    ensures Cover(groups, j + 1) == Cover(groups, j) + 1
            || Size(transcripts[Cover(groups, j)..Cover(groups, j + 1)]) <= limit + 2
  {
    GroupIsSlice(groups, j);
    assert groups[j] in groups;
    JoinedSize(groups[j]);
  }

  /** The transcripts of a file together with the next one do not fit into a file. */
  lemma OneMoreIsTooMuch(groups: seq<seq<string>>, transcripts: seq<string>, limit: nat, j: nat)
    requires IsPacking(groups, transcripts, limit) && Maximal(groups, limit)
    requires j < |groups| && Cover(groups, j + 1) < |transcripts|
    ensures Cover(groups, j) <= Cover(groups, j + 1)
    ensures Size(transcripts[Cover(groups, j)..Cover(groups, j + 1) + 1]) > limit + 2
  {
    GroupIsSlice(groups, j);
    NextStartsAt(groups, transcripts, j);
    var group, next := groups[j], groups[j + 1];
    assert Apart(group, next, limit);
    assert group in groups;
    SliceSnoc(transcripts, Cover(groups, j), Cover(groups, j + 1));
    SizeConcat(group, [next[0]]);
    SizeOne(next[0]);
    JoinedSize(group);
  }

  lemma SliceSnoc<T>(xs: seq<T>, a: nat, b: nat)
    requires a <= b < |xs|
    ensures xs[a..b + 1] == xs[a..b] + [xs[b]]
  {
  }

  lemma SizeOne(t: string)
    ensures Size([t]) == |t| + 2
  {
    assert [t][..0] == [];
  }

  lemma NextStartsAt(groups: seq<seq<string>>, transcripts: seq<string>, j: nat)
    requires Flatten(groups) == transcripts && (forall g :: g in groups ==> g != [])
    requires j < |groups| && Cover(groups, j + 1) < |transcripts|
    ensures j + 1 < |groups| && groups[j + 1] != []
    ensures transcripts[Cover(groups, j + 1)] == groups[j + 1][0]
  {
    assert groups[..|groups|] == groups;
    GroupIsSlice(groups, j + 1);
    assert groups[j + 1] in groups;
    assert transcripts[Cover(groups, j + 1)..Cover(groups, j + 2)][0] == groups[j + 1][0];
  }

  lemma {:induction false} StaysAhead(groups: seq<seq<string>>, other: seq<seq<string>>, transcripts: seq<string>,
                                      limit: nat, j: nat)
    requires IsPacking(groups, transcripts, limit) && Maximal(groups, limit) && IsPacking(other, transcripts, limit)
    requires j <= |groups| && j <= |other|
    ensures Cover(other, j) <= Cover(groups, j)
  {
    if j > 0 {
      StaysAhead(groups, other, transcripts, limit, j - 1);
      FileReachesFar(groups, other, transcripts, limit, j - 1);
    }
  }

  /** Next-fit is optimal here: no other way of putting the transcripts, in order, into acceptable
      files uses fewer files. */
  lemma PackingIsOptimal(groups: seq<seq<string>>, other: seq<seq<string>>, transcripts: seq<string>, limit: nat)
    requires IsPacking(groups, transcripts, limit) && Maximal(groups, limit) && IsPacking(other, transcripts, limit)
    ensures |groups| <= |other|
  {
    var n := |other|;
    if n < |groups| {
      assert other[..n] == other && groups[n] in groups;
      StaysAhead(groups, other, transcripts, limit, n);
      GroupIsSlice(groups, n);
    }
  }

  function TotalLength(files: seq<OutputFile>): nat {
    if files == [] then 0 else TotalLength(files[..|files| - 1]) + |files[|files| - 1].content|
  }

  /** Two files in a row hold at least one character less than the limit between them. */
  lemma NeighboursAreFull(groups: seq<seq<string>>, limit: nat, i: nat)
    requires Maximal(groups, limit) && i + 1 < |groups|
    ensures |Joined(groups[i])| + |Joined(groups[i + 1])| + 2 > limit
  {
    var next := groups[i + 1];
    assert Apart(groups[i], next, limit);
    JoinedSize(next);
    assert next == [next[0]] + next[1..];
    SizeConcat([next[0]], next[1..]);
    SizeOne(next[0]);
  }

  lemma TotalSnoc(groups: seq<seq<string>>, group: seq<string>)
    ensures TotalLength(Numbered(groups + [group])) == TotalLength(Numbered(groups)) + |Joined(group)|
  {
    NumberedSnoc(groups, group);
    assert Numbered(groups + [group])[..|groups|] == Numbered(groups);
  }

  lemma TwoFilesMore(n: nat, x: int)
    ensures ((n + 2) / 2) * x == (n / 2) * x + x
  {
    assert (n + 2) / 2 == n / 2 + 1;
  }

  /** So half of the files account for that much of the output each. */
  lemma {:induction false} FilesAreHalfFull(groups: seq<seq<string>>, limit: nat)
    requires Maximal(groups, limit)
    ensures (|groups| / 2) * (limit - 1) <= TotalLength(Numbered(groups))
  {
    var n := |groups|;
    if n >= 2 {
      var init := groups[..n - 2];
      FilesAreHalfFull(init, limit);
      NeighboursAreFull(groups, limit, n - 2);
      assert groups == init + [groups[n - 2]] + [groups[n - 1]];
      TotalSnoc(init, groups[n - 2]);
      TotalSnoc(init + [groups[n - 2]], groups[n - 1]);
      TwoFilesMore(n - 2, limit - 1);
    }
  }
}
