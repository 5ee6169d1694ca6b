/** `convert_json_comments_to_yaml`: drop the `_comment`/`_comments` keys of
    every dict reachable from the document through dict values, turn their
    contents into `#` lines in pre-order, and put those lines before the YAML
    dump of what remains. Dicts inside lists are not visited. The YAML dumper
    itself is a parameter. */
module YamlUtils {
  import opened Runtime

  predicate IsCommentKey(k: string)
  {
    k == "_comment" || k == "_comments"
  }

  // ---------------------------------------------------------------------------
  // The cleaned document
  // ---------------------------------------------------------------------------

  /** A dict with its comment keys removed in every dict reachable through
      dict values; other values, lists included, are kept as they are. */
  function Clean(v: Value): Value
    decreases v, 1
  {
    if v.Dict? then Dict(CleanPrefix(v, |v.entries|)) else v
  }

  /** The `cleaned` dict after the loop has seen the first `n` entries of `d`:
      each non-comment key is assigned its value, cleaned when a dict. */
  function CleanPrefix(d: Value, n: nat): seq<(string, Value)>
    requires d.Dict? && n <= |d.entries|
    decreases d, 0, n
  {
    if n == 0 then []
    else
      var acc := CleanPrefix(d, n - 1);
      var (k, x) := d.entries[n - 1];
      if IsCommentKey(k) then acc
      else Put(acc, k, if x.Dict? then Clean(x) else x)
  }

  /** No dict reachable from `v` through dict values has a comment key (dicts
      inside lists are not looked at, as the conversion does not visit them). */
  predicate CommentFree(v: Value)
    decreases v
  {
    v.Dict? ==> forall i :: 0 <= i < |v.entries| ==>
      !IsCommentKey(v.entries[i].0) && CommentFree(v.entries[i].1)
  }

  // ---------------------------------------------------------------------------
  // The comment lines
  // ---------------------------------------------------------------------------

  /** `obj.get("_comment") or obj.get("_comments")`. */
  function CommentSource(entries: seq<(string, Value)>): Value
  {
    var first := GetOr(entries, "_comment", Null);
    if Truthy(first) then first else GetOr(entries, "_comments", Null)
  }

  /** One `# key: value` line for each of the first `n` entries of a dict
      comment. */
  function EntryLines(comment: seq<(string, Value)>, prefix: string, n: nat): (r: seq<string>)
    requires n <= |comment|
    ensures |r| == n
    ensures forall i :: 0 <= i < n ==> r[i] == prefix + "# " + comment[i].0 + ": " + Text(comment[i].1)
  {
    if n == 0 then []
    else EntryLines(comment, prefix, n - 1) + [prefix + "# " + comment[n - 1].0 + ": " + Text(comment[n - 1].1)]
  }

  /** The lines of a dict's own comment: one per entry of a dict comment, one
      for a string comment, none for a falsy comment or any other type. */
  function OwnLines(comment: Value, prefix: string): seq<string>
  {
    if !Truthy(comment) then []
    else if comment.Dict? then EntryLines(comment.entries, prefix, |comment.entries|)
    else if comment.Str? then [prefix + "# " + comment.s]
    else []
  }

  /** All comment lines of a dict in pre-order: its own, then those of its
      dict-valued non-comment children in key order. */
  function CommentLines(v: Value, prefix: string): seq<string>
    requires v.Dict?
    decreases v, 1
  {
    OwnLines(CommentSource(v.entries), prefix) + ChildLines(v, prefix, |v.entries|)
  }

  /** The comment lines contributed by the first `n` entries of `d`. */
  function ChildLines(d: Value, prefix: string, n: nat): seq<string>
    requires d.Dict? && n <= |d.entries|
    decreases d, 0, n
  {
    if n == 0 then []
    else
      var (k, x) := d.entries[n - 1];
      ChildLines(d, prefix, n - 1) + (if !IsCommentKey(k) && x.Dict? then CommentLines(x, prefix) else [])
  }

  // ---------------------------------------------------------------------------
  // The procedure
  // ---------------------------------------------------------------------------

  /** `add_comments(obj, prefix)`: returns the cleaned dict, and appends the
      comment lines to the enclosing list, given here as `lines` before the
      call and `linesOut` after it. */
  method AddComments(obj: Value, prefix: string, lines: seq<string>) returns (cleaned: Value, linesOut: seq<string>)
    requires obj.Dict?
    ensures cleaned == Clean(obj)
    ensures linesOut == lines + CommentLines(obj, prefix)
    decreases obj, 1
  {
    linesOut := EmitComments(CommentSource(obj.entries), prefix, lines);
    ghost var own := linesOut;
    assert own == lines + OwnLines(CommentSource(obj.entries), prefix);
    var entries: seq<(string, Value)> := [];
    var i := 0;
    assert linesOut == own + ChildLines(obj, prefix, 0);
    while i < |obj.entries|
      invariant 0 <= i <= |obj.entries|
      invariant entries == CleanPrefix(obj, i)
      invariant linesOut == own + ChildLines(obj, prefix, i)
    {
      entries, linesOut := AddEntry(obj, prefix, i, own, entries, linesOut);
      i := i + 1;
    }
    Extend(lines, OwnLines(CommentSource(obj.entries), prefix), ChildLines(obj, prefix, |obj.entries|), own, linesOut);
    cleaned := Dict(entries);
  }

  /** One pass of the loop in `add_comments`: entry `i` of `obj` is skipped
      when its key is a comment key, and otherwise assigned into the cleaned
      dict, a dict value after its own comments have been collected. */
  method AddEntry(obj: Value, prefix: string, i: nat, ghost own: seq<string>, entries: seq<(string, Value)>, linesOut: seq<string>)
    returns (entries': seq<(string, Value)>, linesOut': seq<string>)
    requires obj.Dict? && i < |obj.entries|
    requires entries == CleanPrefix(obj, i)
    requires linesOut == own + ChildLines(obj, prefix, i)
    ensures entries' == CleanPrefix(obj, i + 1)
    ensures linesOut' == own + ChildLines(obj, prefix, i + 1)
    decreases obj, 0
  {
    var key, value := obj.entries[i].0, obj.entries[i].1;
    LoopStep(obj, prefix, i);
    entries', linesOut' := entries, linesOut;
    if !IsCommentKey(key) && value.Dict? {
      var sub;
      sub, linesOut' := AddComments(value, prefix, linesOut);
      Extend(own, ChildLines(obj, prefix, i), CommentLines(value, prefix), linesOut, linesOut');
      entries' := Put(entries, key, sub);
    } else if !IsCommentKey(key) {
      entries' := Put(entries, key, value);
    }
  }

  /** Appending to the lines collected so far extends what was collected:
      `after` is `before` plus `c`, where `before` is `a + b`. */
  lemma Extend(a: seq<string>, b: seq<string>, c: seq<string>, before: seq<string>, after: seq<string>)
    requires before == a + b && after == before + c
    ensures after == a + (b + c)
  {
  }

  /** The first half of `add_comments`: the lines of the dict's own comment
      are appended to the enclosing list. */
  method EmitComments(comments: Value, prefix: string, lines: seq<string>) returns (linesOut: seq<string>)
    ensures linesOut == lines + OwnLines(comments, prefix)
  {
    linesOut := lines;
    if Truthy(comments) {
      if comments.Dict? {
        var j := 0;
        while j < |comments.entries|
          invariant 0 <= j <= |comments.entries|
          invariant linesOut == lines + EntryLines(comments.entries, prefix, j)
        {
          var key, value := comments.entries[j].0, comments.entries[j].1;
          linesOut := linesOut + [prefix + "# " + key + ": " + Text(value)];
          j := j + 1;
        }
      } else if comments.Str? {
        linesOut := linesOut + [prefix + "# " + comments.s];
      }
    }
  }

  /** One more entry of the loop in `add_comments`. */
  lemma LoopStep(d: Value, prefix: string, n: nat)
    requires d.Dict? && n < |d.entries|
    ensures var k, x := d.entries[n].0, d.entries[n].1;
      && CleanPrefix(d, n + 1) == (if IsCommentKey(k) then CleanPrefix(d, n) else Put(CleanPrefix(d, n), k, if x.Dict? then Clean(x) else x))
      && (!IsCommentKey(k) && x.Dict? ==> ChildLines(d, prefix, n + 1) == ChildLines(d, prefix, n) + CommentLines(x, prefix))
      && (IsCommentKey(k) || !x.Dict? ==> ChildLines(d, prefix, n + 1) == ChildLines(d, prefix, n))
  {
    var k, x := d.entries[n].0, d.entries[n].1;
    if IsCommentKey(k) || !x.Dict? {
      assert ChildLines(d, prefix, n + 1) == ChildLines(d, prefix, n) + [];
    }
  }

  /** How the result text is put together from the comment lines and the
      dump. */
  function Combine(lines: seq<string>, content: string): string
  {
    if lines != [] then Join(lines, "\n") + "\n\n" + content else content
  }

  /** The whole conversion, with `dump` standing for `yaml.safe_dump` under the
      options used (block style, indent 2, keys in insertion order). */
  function Converted(data: Value, dump: Value -> string): string
  {
    if data.Dict? then Combine(CommentLines(data, ""), dump(Clean(data)))
    else Combine([], dump(data))
  }

  method ConvertJsonCommentsToYaml(data: Value, dump: Value -> string) returns (text: string)
    ensures text == Converted(data, dump)
  {
    var yamlLines: seq<string> := [];
    var cleanedData: Value;
    if data.Dict? {
      cleanedData, yamlLines := AddComments(data, "", yamlLines);
      assert yamlLines == CommentLines(data, "");
    } else {
      cleanedData := data;
    }
    var yamlContent := dump(cleanedData);
    if yamlLines != [] {
      text := Join(yamlLines, "\n") + "\n\n" + yamlContent;
    } else {
      text := yamlContent;
    }
    assert text == Combine(yamlLines, yamlContent);
  }

  // ---------------------------------------------------------------------------
  // Properties
  // ---------------------------------------------------------------------------

  /** An assignment into a dict either replaces a value or adds the new entry. */
  lemma {:induction false} PutEntries(entries: seq<(string, Value)>, key: string, v: Value)
    ensures forall i :: 0 <= i < |Put(entries, key, v)| ==>
      Put(entries, key, v)[i] in entries || Put(entries, key, v)[i] == (key, v)
    decreases |entries|
  {
    if entries != [] && entries[0].0 != key {
      PutEntries(entries[1..], key, v);
      var rest := Put(entries[1..], key, v);
      assert Put(entries, key, v) == [entries[0]] + rest;
      forall i | 0 <= i < |Put(entries, key, v)|
        ensures Put(entries, key, v)[i] in entries || Put(entries, key, v)[i] == (key, v)
      {
        if i > 0 {
          assert Put(entries, key, v)[i] == rest[i - 1];
          if rest[i - 1] in entries[1..] {
            var j :| 0 <= j < |entries[1..]| && entries[1..][j] == rest[i - 1];
            assert entries[j + 1] == rest[i - 1];
          }
        }
      }
    }
  }

  /** An assignment of a new key appends the entry at the end. */
  lemma {:induction false} PutAppends(entries: seq<(string, Value)>, key: string, v: Value)
    requires key !in Keys(entries)
    ensures Put(entries, key, v) == entries + [(key, v)]
    decreases |entries|
  {
    if entries != [] {
      assert entries[0].0 == Keys(entries)[0];
      assert Keys(entries[1..]) == Keys(entries)[1..];
      PutAppends(entries[1..], key, v);
      assert entries == [entries[0]] + entries[1..];
    }
  }

  /** Every entry of a cleaned prefix has a non-comment key and a
      comment-free value. */
  lemma {:induction false} CleanPrefixCommentFree(d: Value, n: nat)
    requires d.Dict? && n <= |d.entries|
    ensures forall i :: 0 <= i < |CleanPrefix(d, n)| ==>
      !IsCommentKey(CleanPrefix(d, n)[i].0) && CommentFree(CleanPrefix(d, n)[i].1)
    decreases d, 0, n
  {
    if n > 0 {
      CleanPrefixCommentFree(d, n - 1);
      var acc := CleanPrefix(d, n - 1);
      var (k, x) := d.entries[n - 1];
      if !IsCommentKey(k) {
        var v := if x.Dict? then Clean(x) else x;
        if x.Dict? {
          CleanCommentFree(x);
        } else {
          assert CommentFree(v);
        }
        PutEntries(acc, k, v);
      }
    }
  }

  /** The cleaned data has no `_comment` or `_comments` key in any nested
      dict. */
  lemma {:induction false} CleanCommentFree(v: Value)
    requires v.Dict?
    ensures CommentFree(Clean(v))
    decreases v, 1
  {
    CleanPrefixCommentFree(v, |v.entries|);
  }

  /** The reference reading of the cleaning loop on a dict with distinct keys:
      the non-comment entries in their original order, dict values cleaned,
      other values unchanged. */
  function Strip(entries: seq<(string, Value)>): seq<(string, Value)>
    decreases |entries|
  {
    if entries == [] then []
    else
      var (k, x) := entries[|entries| - 1];
      Strip(entries[..|entries| - 1]) + (if IsCommentKey(k) then [] else [(k, if x.Dict? then Clean(x) else x)])
  }

  lemma {:induction false} StripKeys(entries: seq<(string, Value)>)
    ensures forall i :: 0 <= i < |Strip(entries)| ==> Strip(entries)[i].0 in Keys(entries)
    decreases |entries|
  {
    if entries != [] {
      var init := entries[..|entries| - 1];
      StripKeys(init);
      forall i | 0 <= i < |Strip(entries)|
        ensures Strip(entries)[i].0 in Keys(entries)
      {
        if i < |Strip(init)| {
          var k := Strip(init)[i].0;
          assert k in Keys(init);
          var j :| 0 <= j < |init| && Keys(init)[j] == k;
          assert Keys(entries)[j] == k;
        } else {
          assert Keys(entries)[|entries| - 1] == Strip(entries)[i].0;
        }
      }
    }
  }

  /** On a dict with distinct keys (every Python dict), the loop's result is
      the reference: key order kept, comment keys dropped. */
  lemma {:induction false} CleanPrefixIsStrip(d: Value, n: nat)
    requires d.Dict? && n <= |d.entries| && DistinctKeys(d.entries)
    ensures CleanPrefix(d, n) == Strip(d.entries[..n])
    decreases n
  {
    if n > 0 {
      CleanPrefixIsStrip(d, n - 1);
      var (k, x) := d.entries[n - 1];
      assert d.entries[..n][..n - 1] == d.entries[..n - 1];
      if !IsCommentKey(k) {
        var acc := CleanPrefix(d, n - 1);
        StripKeys(d.entries[..n - 1]);
        assert k !in Keys(acc);
        PutAppends(acc, k, if x.Dict? then Clean(x) else x);
      }
    }
  }

  /** Key order and values, stated on the whole dict. */
  lemma CleanKeepsOrder(v: Value)
    requires v.Dict? && DistinctKeys(v.entries)
    ensures Clean(v) == Dict(Strip(v.entries))
  {
    CleanPrefixIsStrip(v, |v.entries|);
    assert v.entries[..|v.entries|] == v.entries;
  }

  /** A comment-free dict is left as it is. */
  lemma {:induction false} CleanCommentFreeIdentity(v: Value)
    requires v.Dict? && CommentFree(v) && DeepDistinct(v)
    ensures Clean(v) == v
    decreases v, 1
  {
    CleanPrefixIdentity(v, |v.entries|);
    assert v.entries[..|v.entries|] == v.entries;
  }

  lemma {:induction false} CleanPrefixIdentity(d: Value, n: nat)
    requires d.Dict? && n <= |d.entries| && CommentFree(d) && DeepDistinct(d)
    ensures CleanPrefix(d, n) == d.entries[..n]
    decreases d, 0, n
  {
    if n > 0 {
      CleanPrefixIdentity(d, n - 1);
      var k, x := d.entries[n - 1].0, d.entries[n - 1].1;
      assert !IsCommentKey(k) && CommentFree(x) && DeepDistinct(x);
      if x.Dict? {
        CleanCommentFreeIdentity(x);
      }
      var acc := d.entries[..n - 1];
      KeyIsFresh(d.entries, n - 1);
      PutAppends(acc, k, x);
      assert d.entries[..n] == acc + [(k, x)];
    }
  }

  /** In a dict with distinct keys, no key occurs before its own entry. */
  lemma KeyIsFresh(entries: seq<(string, Value)>, n: nat)
    requires DistinctKeys(entries) && n < |entries|
    ensures entries[n].0 !in Keys(entries[..n])
  {
  }

  /** Every dict in `v` has distinct keys, as every Python dict does. */
  predicate DeepDistinct(v: Value)
    decreases v
  {
    v.Dict? ==> DistinctKeys(v.entries) && forall i :: 0 <= i < |v.entries| ==> DeepDistinct(v.entries[i].1)
  }

  /** Cleaning is idempotent on Python dicts. */
  lemma CleanIdempotent(v: Value)
    requires v.Dict? && DeepDistinct(v)
    ensures Clean(Clean(v)) == Clean(v)
  {
    CleanCommentFree(v);
    CleanDeepDistinct(v);
    CleanCommentFreeIdentity(Clean(v));
  }

  lemma {:induction false} CleanDeepDistinct(v: Value)
    requires v.Dict? && DeepDistinct(v)
    ensures DeepDistinct(Clean(v))
    decreases v, 1
  {
    CleanPrefixDeepDistinct(v, |v.entries|);
  }

  lemma {:induction false} CleanPrefixDeepDistinct(d: Value, n: nat)
    requires d.Dict? && n <= |d.entries| && DeepDistinct(d)
    ensures DistinctKeys(CleanPrefix(d, n))
    ensures forall i :: 0 <= i < |CleanPrefix(d, n)| ==> DeepDistinct(CleanPrefix(d, n)[i].1)
    decreases d, 0, n
  {
    if n > 0 {
      CleanPrefixDeepDistinct(d, n - 1);
      var acc := CleanPrefix(d, n - 1);
      var (k, x) := d.entries[n - 1];
      if !IsCommentKey(k) {
        var v := if x.Dict? then Clean(x) else x;
        assert DeepDistinct(x);
        if x.Dict? {
          CleanDeepDistinct(x);
        }
        PutEntries(acc, k, v);
        PutDistinct(acc, k, v);
        forall i | 0 <= i < |Put(acc, k, v)|
          ensures DeepDistinct(Put(acc, k, v)[i].1)
        {
          var e := Put(acc, k, v)[i];
          if e != (k, v) {
            var j :| 0 <= j < |acc| && acc[j] == e;
          }
        }
      }
    }
  }

  /** An assignment keeps the keys distinct. */
  lemma PutDistinct(entries: seq<(string, Value)>, key: string, v: Value)
    requires DistinctKeys(entries)
    ensures DistinctKeys(Put(entries, key, v))
  {
    var r := Put(entries, key, v);
    PutKeys(entries, key, v);
    GetPresent(entries, key);
    assert Keys(r) == if key in Keys(entries) then Keys(entries) else Keys(entries) + [key];
    forall i, j | 0 <= i < j < |r|
      ensures r[i].0 != r[j].0
    {
      assert Keys(r)[i] == r[i].0 && Keys(r)[j] == r[j].0;
      if key !in Keys(entries) && j == |entries| {
        assert Keys(entries)[i] == r[i].0;
      } else {
        assert Keys(entries)[i] == r[i].0 && Keys(entries)[j] == r[j].0;
        assert entries[i].0 != entries[j].0;
      }
    }
  }

  /** A dict without comments in any dict reachable through dict values
      yields no comment lines. */
  lemma {:induction false} CommentFreeHasNoLines(v: Value, prefix: string)
    requires v.Dict? && CommentFree(v)
    ensures CommentLines(v, prefix) == []
    decreases v, 1
  {
    NoCommentKeyNoSource(v.entries);
    ChildLinesEmpty(v, prefix, |v.entries|);
  }

  lemma {:induction false} ChildLinesEmpty(d: Value, prefix: string, n: nat)
    requires d.Dict? && n <= |d.entries| && CommentFree(d)
    ensures ChildLines(d, prefix, n) == []
    decreases d, 0, n
  {
    if n > 0 {
      ChildLinesEmpty(d, prefix, n - 1);
      var (k, x) := d.entries[n - 1];
      assert CommentFree(x);
      if x.Dict? {
        CommentFreeHasNoLines(x, prefix);
      }
    }
  }

  lemma NoCommentKeyNoSource(entries: seq<(string, Value)>)
    requires forall i :: 0 <= i < |entries| ==> !IsCommentKey(entries[i].0)
    ensures CommentSource(entries) == Null
  {
    GetPresent(entries, "_comment");
    GetPresent(entries, "_comments");
  }

  /** `_comment` takes precedence unless it is falsy; then `_comments` is
      used. */
  lemma CommentPrecedence(entries: seq<(string, Value)>)
    ensures Truthy(GetOr(entries, "_comment", Null)) ==> CommentSource(entries) == GetOr(entries, "_comment", Null)
    ensures !Truthy(GetOr(entries, "_comment", Null)) ==> CommentSource(entries) == GetOr(entries, "_comments", Null)
  {
  }

  /** Every comment line starts with the prefix and `# `. */
  lemma {:induction false} LinesAreComments(v: Value, prefix: string)
    requires v.Dict?
    ensures forall i :: 0 <= i < |CommentLines(v, prefix)| ==>
      |CommentLines(v, prefix)[i]| >= |prefix| + 2 && CommentLines(v, prefix)[i][..|prefix| + 2] == prefix + "# "
    decreases v, 1
  {
    var own := OwnLines(CommentSource(v.entries), prefix);
    assert forall i :: 0 <= i < |own| ==> |own[i]| >= |prefix| + 2 && own[i][..|prefix| + 2] == prefix + "# ";
    ChildLinesAreComments(v, prefix, |v.entries|);
  }

  lemma {:induction false} ChildLinesAreComments(d: Value, prefix: string, n: nat)
    requires d.Dict? && n <= |d.entries|
    ensures forall i :: 0 <= i < |ChildLines(d, prefix, n)| ==>
      |ChildLines(d, prefix, n)[i]| >= |prefix| + 2 && ChildLines(d, prefix, n)[i][..|prefix| + 2] == prefix + "# "
    decreases d, 0, n
  {
    if n > 0 {
      ChildLinesAreComments(d, prefix, n - 1);
      var (k, x) := d.entries[n - 1];
      if !IsCommentKey(k) && x.Dict? {
        LinesAreComments(x, prefix);
      }
    }
  }

  /** A dict's own comment lines come first, before any child's: the result
      begins with its own lines. */
  lemma OwnLinesFirst(v: Value, prefix: string)
    requires v.Dict?
    ensures var own := OwnLines(CommentSource(v.entries), prefix);
      |own| <= |CommentLines(v, prefix)| && CommentLines(v, prefix)[..|own|] == own
  {
  }

  /** A dict comment gives one line per entry, in order; a string comment one
      line. */
  lemma OwnLinesShape(comment: Value, prefix: string)
    ensures comment.Dict? && comment.entries != [] ==>
      && |OwnLines(comment, prefix)| == |comment.entries|
      && forall i :: 0 <= i < |comment.entries| ==>
           OwnLines(comment, prefix)[i] == prefix + "# " + comment.entries[i].0 + ": " + Text(comment.entries[i].1)
    ensures comment.Str? && comment.s != "" ==> OwnLines(comment, prefix) == [prefix + "# " + comment.s]
    ensures !comment.Dict? && !comment.Str? ==> OwnLines(comment, prefix) == []
  {
  }

  /** The output is the dump alone exactly when there are no comment lines. */
  lemma CombineIsDumpIff(lines: seq<string>, content: string)
    ensures lines == [] ==> Combine(lines, content) == content
    ensures lines != [] ==> Combine(lines, content) == Join(lines, "\n") + "\n\n" + content
    ensures Combine(lines, content) == content <==> lines == []
  {
    if lines != [] {
      assert |Combine(lines, content)| > |content|;
    }
  }

  /** Top-level data that is not a dict passes through uncleaned, with no
      comment lines. */
  lemma NonDictPassesThrough(data: Value, dump: Value -> string)
    requires !data.Dict?
    ensures Converted(data, dump) == dump(data)
  {
  }

  /** A document without comments is dumped as it is. */
  lemma CommentFreeDocument(data: Value, dump: Value -> string)
    requires data.Dict? && CommentFree(data) && DeepDistinct(data)
    ensures Converted(data, dump) == dump(data)
  {
    CommentFreeHasNoLines(data, "");
    CleanCommentFreeIdentity(data);
  }

  /** Dicts inside lists keep their comment keys and contribute no lines:
      `{"a": [{"_comment": "x", "b": 1}]}` converts to its plain dump. */
  lemma ListsAreNotVisited(dump: Value -> string)
    ensures var inner := Dict([("_comment", Str("x")), ("b", Int(1))]);
      var data := Dict([("a", List([inner]))]);
      && Clean(data) == data
      && CommentLines(data, "") == []
      && Converted(data, dump) == dump(data)
  {
    var inner := Dict([("_comment", Str("x")), ("b", Int(1))]);
    var data := Dict([("a", List([inner]))]);
    assert CleanPrefix(data, 1) == Put([], "a", List([inner]));
    assert ChildLines(data, "", 1) == [];
    assert data.entries[1..] == [];
    assert Get(data.entries, "_comment") == None && Get(data.entries, "_comments") == None;
  }
}
