/** The stylesheets of a release subject: each certified file is matched to a
    stage artifact of the same digest and size, first come first served. */
module Stylesheets {
  import opened Wrappers

  /** A certified stylesheet: its path, digest and size. */
  datatype File = File(path: string, key: Key)

  datatype Key = Key(digest: nat, size: nat)

  /** A stage artifact; the transfer tells artifacts of equal bytes apart. */
  datatype Artifact = Artifact(key: Key, transfer: nat)

  datatype Style = Style(path: string, artifact: Artifact)

  const ENTRY_PATH := "index.js"
  const MANIFEST_PATH := "browser-manifest.json"

  function Segments(p: string): (r: seq<string>)
    ensures |r| > 0
  {
    if p == "" then [""]
    else
      var rest := Segments(p[1..]);
      if p[0] == '/' then [""] + rest else [[p[0]] + rest[0]] + rest[1..]
  }

  function Joined(segments: seq<string>): string {
    if segments == [] then "" else if |segments| == 1 then segments[0] else segments[0] + "/" + Joined(segments[1..])
  }

  /** The segments are the path cut at its slashes, and nothing else is. */
  lemma {:induction false} SegmentsExact(p: string)
    ensures Joined(Segments(p)) == p
    ensures forall i :: 0 <= i < |Segments(p)| ==> '/' !in Segments(p)[i]
  {
    if p != "" {
      SegmentsExact(p[1..]);
      var rest := Segments(p[1..]);
      if p[0] == '/' {
        assert ([""] + rest)[1..] == rest;
        assert p == "" + "/" + p[1..];
      } else {
        var all := [[p[0]] + rest[0]] + rest[1..];
        assert all[1..] == rest[1..];
        assert p == [p[0]] + p[1..];
        assert |rest| > 1 ==> Joined(all) == [p[0]] + (rest[0] + "/" + Joined(rest[1..]));
      }
    }
  }

  predicate PublishableChar(c: char) {
    'a' <= c <= 'z' || 'A' <= c <= 'Z' || '0' <= c <= '9' || c == '.' || c == '_' || c == '-'
  }

  predicate PublishableSegment(s: string) {
    s != "" && s != "." && s != ".." && forall i :: 0 <= i < |s| ==> PublishableChar(s[i])
  }

  ghost predicate Publishable(p: string) {
    && p != "" && |p| <= 512 && p != ENTRY_PATH && p != MANIFEST_PATH
    && forall i :: 0 <= i < |Segments(p)| ==> PublishableSegment(Segments(p)[i])
  }

  method ValidReleasePath(p: string) returns (ok: bool)
    ensures ok <==> Publishable(p)
  {
    if p == "" || |p| > 512 || p == ENTRY_PATH || p == MANIFEST_PATH {
      return false;
    }
    var segments := Segments(p);
    var i := 0;
    while i < |segments|
      invariant i <= |segments|
      invariant forall k :: 0 <= k < i ==> PublishableSegment(segments[k])
    {
      var s := segments[i];
      if s == "" || s == "." || s == ".." {
        assert !PublishableSegment(segments[i]);
        return false;
      }
      var j := 0;
      while j < |s|
        invariant j <= |s|
        invariant forall k :: 0 <= k < j ==> PublishableChar(s[k])
      {
        if !PublishableChar(s[j]) {
          assert !PublishableSegment(segments[i]);
          return false;
        }
        j := j + 1;
      }
      i := i + 1;
    }
    return true;
  }

  /** The digests and sizes, in order. */
  function FileKeys(fs: seq<File>): seq<Key> {
    seq(|fs|, i requires 0 <= i < |fs| => fs[i].key)
  }

  function ArtifactKeys(xs: seq<Artifact>): seq<Key> {
    seq(|xs|, i requires 0 <= i < |xs| => xs[i].key)
  }

  function Artifacts(styles: seq<Style>): seq<Artifact> {
    seq(|styles|, i requires 0 <= i < |styles| => styles[i].artifact)
  }

  function Without<T>(xs: seq<T>, i: nat): seq<T>
    requires i < |xs|
  {
    xs[..i] + xs[i + 1..]
  }

  lemma TakeOut<T>(xs: seq<T>, i: nat)
    requires i < |xs|
    ensures multiset(xs) == multiset(Without(xs, i)) + multiset{xs[i]}
  {
    assert xs == xs[..i] + [xs[i]] + xs[i + 1..];
  }

  /** The styles are the certified files, in their order, each with a stage
      artifact of its own. */
  ghost predicate Matches(files: seq<File>, stage: seq<Artifact>, styles: seq<Style>) {
    && |styles| == |files|
    && (forall i :: 0 <= i < |files| ==> styles[i].path == files[i].path && styles[i].artifact.key == files[i].key)
    && multiset(Artifacts(styles)) == multiset(stage)
  }

  /** What is matched so far and what is left are the whole stage. */
  ghost predicate Partly(files: seq<File>, stage: seq<Artifact>, styles: seq<Style>, css: seq<Artifact>, i: nat) {
    && i <= |files| && |css| == |files| - i && |styles| == i
    && (forall k :: 0 <= k < i ==> styles[k].path == files[k].path && styles[k].artifact.key == files[k].key)
    && multiset(ArtifactKeys(stage)) == multiset(FileKeys(files)[..i]) + multiset(ArtifactKeys(css))
    && multiset(stage) == multiset(Artifacts(styles)) + multiset(css)
  }

  lemma OneMore(files: seq<File>, stage: seq<Artifact>, styles: seq<Style>, css: seq<Artifact>, i: nat, at: nat)
    requires Partly(files, stage, styles, css, i) && i < |files| && at < |css| && css[at].key == files[i].key
    ensures Partly(files, stage, styles + [Style(files[i].path, css[at])], Without(css, at), i + 1)
  {
    TakeOut(css, at);
    TakeOut(ArtifactKeys(css), at);
    assert Without(ArtifactKeys(css), at) == ArtifactKeys(Without(css, at));
    assert Artifacts(styles + [Style(files[i].path, css[at])]) == Artifacts(styles) + [css[at]];
    assert FileKeys(files)[..i + 1] == FileKeys(files)[..i] + [files[i].key];
  }

  /** A file with no artifact left of its key cannot be matched at all. */
  lemma Unmatched(files: seq<File>, stage: seq<Artifact>, styles: seq<Style>, css: seq<Artifact>, i: nat)
    requires Partly(files, stage, styles, css, i) && i < |files| && files[i].key !in ArtifactKeys(css)
    ensures multiset(FileKeys(files)) != multiset(ArtifactKeys(stage))
  {
    var ks := FileKeys(files);
    assert ks == ks[..i] + [ks[i]] + ks[i + 1..];
    assert multiset(ks) == multiset(ks[..i]) + multiset{ks[i]} + multiset(ks[i + 1..]);
    assert multiset(ArtifactKeys(css))[ks[i]] == 0;
    assert multiset(ks)[ks[i]] > multiset(ArtifactKeys(stage))[ks[i]];
  }

  lemma AsMany(files: seq<File>, stage: seq<Artifact>)
    ensures multiset(FileKeys(files)) == multiset(ArtifactKeys(stage)) ==> |files| == |stage|
  {
    assert |multiset(FileKeys(files))| == |files| && |multiset(ArtifactKeys(stage))| == |stage|;
  }

  lemma NothingMatched(files: seq<File>, stage: seq<Artifact>)
    requires |files| == |stage|
    ensures Partly(files, stage, [], stage, 0)
  {
    assert FileKeys(files)[..0] == [] && Artifacts([]) == [];
  }

  lemma AllMatched(files: seq<File>, stage: seq<Artifact>, styles: seq<Style>, css: seq<Artifact>)
    requires Partly(files, stage, styles, css, |files|)
    ensures multiset(FileKeys(files)) == multiset(ArtifactKeys(stage)) && Matches(files, stage, styles)
  {
    assert FileKeys(files)[..|files|] == FileKeys(files);
    assert ArtifactKeys(css) == [] && css == [];
  }

  /** The greedy loop is exact: it accepts exactly when the certification and the
      stage hold the same digests and sizes equally often and every path can be
      published, and then it uses every stage artifact once. */
  method MatchStylesheets(files: seq<File>, stage: seq<Artifact>) returns (r: Option<seq<Style>>)
    ensures r.Some? <==>
            && multiset(FileKeys(files)) == multiset(ArtifactKeys(stage))
            && forall i :: 0 <= i < |files| ==> Publishable(files[i].path)
    ensures r.Some? ==> Matches(files, stage, r.value)
  {
    hide Publishable, Matches, Partly, FileKeys, ArtifactKeys;
    AsMany(files, stage);
    if |files| != |stage| {
      return None;
    }
    var css := stage;
    var styles: seq<Style> := [];
    NothingMatched(files, stage);
    var i := 0;
    while i < |files|
      invariant i <= |files| && Partly(files, stage, styles, css, i)
      invariant forall k :: 0 <= k < i ==> Publishable(files[k].path)
    {
      var f := files[i];
      var at := IndexOf(css, f.key);
      var valid := ValidReleasePath(f.path);
      if at == |css| || !valid {
        if at == |css| {
          Unmatched(files, stage, styles, css, i);
        }
        return None;
      }
      OneMore(files, stage, styles, css, i, at);
      assert Without(css, at) == css[..at] + css[at + 1..];
      styles := styles + [Style(f.path, css[at])];
      css := css[..at] + css[at + 1..];
      i := i + 1;
    }
    AllMatched(files, stage, styles, css);
    return Some(styles);
  }

  /** The first artifact of the key, or the length. */
  method IndexOf(css: seq<Artifact>, key: Key) returns (at: nat)
    ensures at <= |css| && (at < |css| ==> css[at].key == key)
    ensures at == |css| <==> key !in ArtifactKeys(css)
    ensures forall k :: 0 <= k < at ==> css[k].key != key
  {
    at := 0;
    while at < |css| && css[at].key != key
      invariant at <= |css| && forall k :: 0 <= k < at ==> css[k].key != key
    {
      at := at + 1;
    }
    assert at < |css| ==> ArtifactKeys(css)[at] == key;
  }
}
