/** Storage paths: the slash-delimited strings the vault builds from its path
    stack ("s/Home/Docs/report.txt") and the three different rules the adapter
    modules use to drop the leading storage-root marker `s`. */
module Paths {

  // ---------------------------------------------------------------------
  // `split('/')` and `join('/')`

  /** `s.split('/')`: never empty, and no part contains a slash. */
  function Split(s: string): (parts: seq<string>)
    ensures |parts| >= 1
    ensures forall k :: 0 <= k < |parts| ==> '/' !in parts[k]
  {
    if s == [] then [""]
    else
      var rest := Split(s[1..]);
      if s[0] == '/' then [""] + rest
      else [[s[0]] + rest[0]] + rest[1..]
  }

  /** `parts.join('/')` */
  function Join(parts: seq<string>): string {
    if parts == [] then ""
    else if |parts| == 1 then parts[0]
    else parts[0] + "/" + Join(parts[1..])
  }

  /** Splitting at the slashes and joining with slashes gives the path back. */
  lemma {:induction false} JoinSplit(s: string)
    ensures Join(Split(s)) == s
  {
    if s != [] {
      var rest := Split(s[1..]);
      JoinSplit(s[1..]);
      if s[0] == '/' {
        assert Split(s) == [""] + rest;
        assert Join(Split(s)) == "" + "/" + Join(rest);
      } else if |rest| == 1 {
        assert Join(Split(s)) == [s[0]] + rest[0];
      } else {
        assert Split(s)[1..] == rest[1..];
        assert Join(Split(s)) == [s[0]] + rest[0] + "/" + Join(rest[1..]);
        assert Join(rest) == rest[0] + "/" + Join(rest[1..]);
        assert s == [s[0]] + s[1..];
      }
    }
  }

  /** A path splits into a single part exactly when it has no slash. */
  lemma {:induction false} SplitSingle(s: string)
    ensures |Split(s)| == 1 <==> '/' !in s
    ensures '/' !in s ==> Split(s) == [s]
  {
    if s != [] {
      SplitSingle(s[1..]);
      assert s == [s[0]] + s[1..];
      assert '/' in s <==> s[0] == '/' || '/' in s[1..];
    }
  }

  /** A slash-free segment followed by a slash splits off as the first part. */
  lemma {:induction false} SplitAfterSegment(seg: string, rest: string)
    requires '/' !in seg
    ensures Split(seg + "/" + rest) == [seg] + Split(rest)
  {
    if seg == [] {
      assert ("" + "/" + rest)[1..] == rest;
    } else {
      SplitAfterSegment(seg[1..], rest);
      assert (seg + "/" + rest)[1..] == seg[1..] + "/" + rest;
      assert [seg[0]] + seg[1..] == seg;
    }
  }

  lemma {:induction false} JoinAppend(parts: seq<string>, last: string)
    requires |parts| >= 1
    ensures Join(parts + [last]) == Join(parts) + "/" + last
  {
    if |parts| == 1 {
      assert parts + [last] == [parts[0], last];
    } else {
      JoinAppend(parts[1..], last);
      assert (parts + [last])[1..] == parts[1..] + [last];
    }
  }

  // ---------------------------------------------------------------------
  // Parent and name: `parts.pop()` and `split('/').slice(0, -1).join('/')`

  /** The last segment, `path.split('/').pop()`. */
  function LastSegment(s: string): string {
    var parts := Split(s);
    parts[|parts| - 1]
  }

  /** Everything before the last segment, `split('/').slice(0, -1).join('/')`. */
  function ParentOf(s: string): string {
    var parts := Split(s);
    Join(parts[..|parts| - 1])
  }

  /** A path is its parent, a slash and its last segment; a path without a
      slash is all name and has the empty parent. */
  lemma ParentAndName(s: string)
    ensures '/' !in LastSegment(s)
    ensures '/' in s ==> ParentOf(s) + "/" + LastSegment(s) == s
    ensures '/' !in s ==> ParentOf(s) == "" && LastSegment(s) == s
  {
    var parts := Split(s);
    var n := |parts| - 1;
    assert LastSegment(s) == parts[n] && ParentOf(s) == Join(parts[..n]);
    SplitSingle(s);
    if '/' in s {
      JoinSplit(s);
      assert n >= 1;
      JoinAppend(parts[..n], parts[n]);
      assert parts[..n] + [parts[n]] == parts;
    } else {
      assert parts == [s];
    }
  }

  /** The sibling rename of rename.js and jackalActions.js: split the old
      path, pop its last segment, push the new name, join. */
  function SiblingTarget(oldPath: string, newName: string): string {
    var parts := Split(oldPath);
    Join(parts[..|parts| - 1] + [newName])
  }

  /** rename.js:12-19, jackalActions.js:339-346: the rename destination. */
  function RenameTarget(oldPath: string, newValue: string): string {
    if '/' in newValue then newValue else SiblingTarget(oldPath, newValue)
  }

  /** A new value that contains a slash is the literal destination; any other
      value replaces the last segment of the old path and keeps its parent. */
  lemma RenameTargetShape(oldPath: string, newValue: string)
    ensures '/' in newValue ==> RenameTarget(oldPath, newValue) == newValue
    ensures '/' !in newValue && '/' in oldPath ==>
      RenameTarget(oldPath, newValue) == ParentOf(oldPath) + "/" + newValue
    ensures '/' !in newValue && '/' !in oldPath ==> RenameTarget(oldPath, newValue) == newValue
    ensures '/' !in newValue ==> LastSegment(RenameTarget(oldPath, newValue)) == newValue
  {
    var parts := Split(oldPath);
    SplitSingle(oldPath);
    if '/' !in newValue {
      if '/' in oldPath {
        JoinAppend(parts[..|parts| - 1], newValue);
        SplitAfterSegmentPath(ParentOf(oldPath), newValue);
      } else {
        assert parts[..|parts| - 1] + [newValue] == [newValue];
        SplitSingle(newValue);
      }
    }
  }

  /** A slash and a slash-free name after a path split off as one more part. */
  lemma {:induction false} SplitThenName(dir: string, name: string)
    requires '/' !in name
    ensures Split(dir + "/" + name) == Split(dir) + [name]
    decreases |dir|
  {
    if dir == [] {
      assert dir + "/" + name == "/" + name;
      SplitSingle(name);
      assert ("/" + name)[1..] == name;
    } else {
      SplitThenName(dir[1..], name);
      assert (dir + "/" + name)[1..] == dir[1..] + "/" + name;
      assert (dir + "/" + name)[0] == dir[0];
      var r := Split(dir[1..]);
      assert (r + [name])[0] == r[0] && (r + [name])[1..] == r[1..] + [name];
    }
  }

  /** The last segment of `dir + "/" + name` is `name` when `name` has no slash. */
  lemma SplitAfterSegmentPath(dir: string, name: string)
    requires '/' !in name
    ensures LastSegment(dir + "/" + name) == name
  {
    SplitThenName(dir, name);
  }

  /** Renaming a file directly inside a folder keeps the folder. */
  lemma RenameInFolder(dir: string, oldName: string, newName: string)
    requires '/' !in dir && '/' !in oldName && '/' !in newName
    ensures RenameTarget(dir + "/" + oldName, newName) == dir + "/" + newName
  {
    SplitAfterSegment(dir, oldName);
    SplitSingle(oldName);
    assert Split(dir + "/" + oldName) == [dir, oldName];
    assert [dir, oldName][..1] + [newName] == [dir, newName];
    assert Join([dir, newName]) == dir + "/" + Join([newName]);
    assert SiblingTarget(dir + "/" + oldName, newName) == Join([dir, newName]);
  }

  lemma RenameExamples()
    ensures RenameTarget("Home/a.txt", "b.txt") == "Home/b.txt"
    ensures RenameTarget("Home/a.txt", "Old/b.txt") == "Old/b.txt"
  {
    assert '/' !in "Home" && '/' !in "a.txt" && '/' !in "b.txt";
    RenameInFolder("Home", "a.txt", "b.txt");
    assert "Home" + "/" + "a.txt" == "Home/a.txt";
    assert "Home" + "/" + "b.txt" == "Home/b.txt";
    assert "Old/b.txt"[3] == '/';
  }

  // ---------------------------------------------------------------------
  // The three storage-root rules

  /** `path.replace(/^\/?s(\/?|$)/, '')` (read.js:33, rename.js:21-22): an
      optional slash, then `s`, then an optional slash. Because the trailing
      slash is optional, any leading `s` goes. */
  function StripRootLoose(p: string): (r: string)
    ensures |p| - 3 <= |r| <= |p| && r == p[|p| - |r|..]
  {
    if |p| >= 2 && p[0] == '/' && p[1] == 's' then
      (if |p| >= 3 && p[2] == '/' then p[3..] else p[2..])
    else if |p| >= 1 && p[0] == 's' then
      (if |p| >= 2 && p[1] == '/' then p[2..] else p[1..])
    else p
  }

  /** `path.replace(/^\/?s(\/|$)/, '')` (jackalActions.js:50, 349-350): `s`
      goes only when a slash or the end of the path follows it. */
  function StripRootStrict(p: string): (r: string)
    ensures |p| - 3 <= |r| <= |p| && r == p[|p| - |r|..]
  {
    if |p| >= 3 && p[0] == '/' && p[1] == 's' && p[2] == '/' then p[3..]
    else if |p| == 2 && p[0] == '/' && p[1] == 's' then ""
    else if |p| >= 2 && p[0] == 's' && p[1] == '/' then p[2..]
    else if |p| == 1 && p[0] == 's' then ""
    else p
  }

  /** `path.replace(/^s\//, '')` (upload, delete, share, download): only a
      leading "s/" goes. */
  function StripSPrefix(p: string): (r: string)
    ensures |p| - 2 <= |r| <= |p| && r == p[|p| - |r|..]
  {
    if |p| >= 2 && p[0] == 's' && p[1] == '/' then p[2..] else p
  }

  predicate LeadingSSlash(p: string) {
    |p| >= 2 && p[0] == 's' && p[1] == '/'
  }

  /** The first segment of `p`, after one optional leading slash, is exactly `s`. */
  predicate RootMarkerSegment(p: string) {
    || (|p| >= 1 && p[0] == 's' && (|p| == 1 || p[1] == '/'))
    || (|p| >= 2 && p[0] == '/' && p[1] == 's' && (|p| == 2 || p[2] == '/'))
  }

  /** `p` begins with `s`, or with a slash and then `s`. */
  predicate LeadingS(p: string) {
    (|p| >= 1 && p[0] == 's') || (|p| >= 2 && p[0] == '/' && p[1] == 's')
  }

  /** How the three rules relate. The strict rule changes a path exactly when
      its first segment is the marker `s`; the "s/" rule only for a leading
      "s/"; the loose rule also cuts a leading `s` off a longer first segment,
      and that is the only place where it departs from the strict rule. */
  lemma StripRulesCompared(p: string)
    ensures StripRootStrict(p) != p <==> RootMarkerSegment(p)
    ensures StripSPrefix(p) != p <==> LeadingSSlash(p)
    ensures StripRootLoose(p) != p <==> LeadingS(p)
    ensures LeadingSSlash(p) ==> StripRootStrict(p) == StripSPrefix(p) == StripRootLoose(p) == p[2..]
    ensures RootMarkerSegment(p) ==> StripRootLoose(p) == StripRootStrict(p)
    ensures LeadingS(p) && !RootMarkerSegment(p) ==>
      StripRootLoose(p) == p[if p[0] == 's' then 1 else 2..] != StripRootStrict(p)
  {
    if RootMarkerSegment(p) {
      assert |StripRootStrict(p)| < |p|;
    }
    if LeadingS(p) {
      assert |StripRootLoose(p)| < |p|;
    }
    if LeadingSSlash(p) {
      assert |StripSPrefix(p)| < |p|;
    }
  }

  lemma StripExamples()
    ensures StripRootLoose("shared") == "hared"
    ensures StripRootStrict("shared") == "shared"
    ensures StripSPrefix("shared") == "shared"
    ensures StripRootLoose("s/Home") == StripRootStrict("s/Home") == StripSPrefix("s/Home") == "Home"
    ensures StripRootLoose("/s/Home") == StripRootStrict("/s/Home") == "Home"
    ensures StripSPrefix("/s/Home") == "/s/Home"
  {
  }
}
