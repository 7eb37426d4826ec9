/** Title and tag extraction used when documents are loaded into the knowledge base. */
module Populate {
  import opened Wrappers
  import PyStr
  import PySeq

  predicate IsHeading(line: string)
  {
    PyStr.StartsWith(line, "# ")
  }

  /** Line i is the first heading line. */
  predicate FirstHeadingAt(lines: seq<string>, i: int)
  {
    0 <= i < |lines| && IsHeading(lines[i]) && forall j :: 0 <= j < i ==> !IsHeading(lines[j])
  }

  predicate NoHeading(lines: seq<string>)
  {
    forall i :: 0 <= i < |lines| ==> !IsHeading(lines[i])
  }

  /** The stripped text after "# " on the first line that starts with it. */
  function HeadingTitle(lines: seq<string>): (r: Option<string>)
    ensures r.None? <==> NoHeading(lines)
    ensures r.Some? ==> exists i :: FirstHeadingAt(lines, i) && r.value == PyStr.Strip(lines[i][2..])
  {
    if lines == [] then None
    else if IsHeading(lines[0]) then
      assert FirstHeadingAt(lines, 0);
      Some(PyStr.Strip(lines[0][2..]))
    else
      var rest := HeadingTitle(lines[1..]);
      assert forall i :: 1 <= i < |lines| ==> lines[i] == lines[1..][i - 1];
      if rest.Some? then
        var k :| FirstHeadingAt(lines[1..], k) && rest.value == PyStr.Strip(lines[1..][k][2..]);
        assert FirstHeadingAt(lines, k + 1) by {
          forall j | 0 <= j < k + 1 ensures !IsHeading(lines[j]) {
            if j > 0 { assert lines[j] == lines[1..][j - 1]; }
          }
        }
        rest
      else
        rest
  }

  /** The title made from a file name: ".md" removed, underscores as spaces, title case. */
  function FileTitle(filename: string): (r: string)
    ensures |r| <= |filename|
    ensures '_' !in r
  {
    PyStr.Title(PyStr.ReplaceAll(PyStr.ReplaceAll(filename, ".md", ""), "_", " "))
  }

  /** `_extract_title`: the text of the first heading line, else the title made from the
      file name. */
  function ExtractTitle(content: string, filename: string): (title: string)
    ensures var lines := PyStr.SplitOn(content, '\n');
            (exists i :: FirstHeadingAt(lines, i) && title == PyStr.Strip(lines[i][2..])) ||
            (NoHeading(lines) && title == FileTitle(filename))
  {
    var heading := HeadingTitle(PyStr.SplitOn(content, '\n'));
    if heading.Some? then heading.value else FileTitle(filename)
  }

  /** The content keywords, in the order they are tested, and the tag each one adds. */
  const Words: seq<string> := ["agent", "workflow", "api", "implementation", "coordination"]

  const TagNames: seq<string> := ["agents", "workflows", "api", "implementation", "coordination"]

  /** `keyword in content.lower()`. */
  predicate Mentions(content: string, keyword: string)
  {
    PyStr.Contains(PyStr.Lower(content), keyword)
  }

  /** No two keywords add the same tag. */
  lemma TagNamesDistinct()
    ensures forall j, k :: 0 <= j < k < |TagNames| ==> TagNames[j] != TagNames[k]
  {
    assert |TagNames[0]| == 6 && |TagNames[1]| == 9 && |TagNames[2]| == 3 &&
           |TagNames[3]| == 14 && |TagNames[4]| == 12;
  }

  /** The tags the first n keywords add to the content. */
  function KeywordTags(content: string, n: nat): (r: seq<string>)
    requires n <= |Words|
    ensures |r| <= n
  {
    if n == 0 then []
    else KeywordTags(content, n - 1) + (if Mentions(content, Words[n - 1]) then [TagNames[n - 1]] else [])
  }

  /** A keyword's tag is added exactly when the content mentions the keyword, and no other
      tag is added. */
  lemma {:induction false} KeywordTagsExact(content: string, n: nat)
    requires n <= |Words|
    ensures |KeywordTags(content, n)| <= n
    ensures forall t :: t in KeywordTags(content, n) ==> t in TagNames[..n]
    ensures forall k :: 0 <= k < n ==> (TagNames[k] in KeywordTags(content, n) <==> Mentions(content, Words[k]))
  {
    if n > 0 {
      KeywordTagsExact(content, n - 1);
      TagNamesDistinct();
      var prev := KeywordTags(content, n - 1);
      var added := if Mentions(content, Words[n - 1]) then [TagNames[n - 1]] else [];
      assert KeywordTags(content, n) == prev + added;
      assert TagNames[..n] == TagNames[..n - 1] + [TagNames[n - 1]];
      assert TagNames[n - 1] !in TagNames[..n - 1];
      forall k | 0 <= k < n
        ensures TagNames[k] in prev + added <==> Mentions(content, Words[k])
      {
        if k < n - 1 {
          assert TagNames[k] !in added;
        }
      }
    }
  }

  /** One of the five tests: `if word in content.lower(): tags.append(tag)`. */
  method AddTagIf(tags: seq<string>, content: string, category: string, k: nat) returns (r: seq<string>)
    requires k < |Words|
    requires tags == [category] + KeywordTags(content, k)
    ensures r == [category] + KeywordTags(content, k + 1)
  {
    r := tags;
    if Mentions(content, Words[k]) {
      r := r + [TagNames[k]];
    }
  }

  /** The list `_generate_tags` builds before removing duplicates. */
  method AppendKeywordTags(content: string, category: string) returns (tags: seq<string>)
    ensures tags == [category] + KeywordTags(content, |Words|)
  {
    tags := [category];
    tags := AddTagIf(tags, content, category, 0);
    tags := AddTagIf(tags, content, category, 1);
    tags := AddTagIf(tags, content, category, 2);
    tags := AddTagIf(tags, content, category, 3);
    tags := AddTagIf(tags, content, category, 4);
  }

  /** `_generate_tags`: the category, then one tag per keyword the content mentions, without
      duplicates. */
  method GenerateTags(content: string, category: string) returns (tags: seq<string>)
    ensures category in tags
    ensures forall k :: 0 <= k < |Words| ==>
              (TagNames[k] in tags <==> Mentions(content, Words[k]) || TagNames[k] == category)
    ensures forall t :: t in tags ==> t == category || t in TagNames
    ensures PySeq.NoDuplicates(tags)
    ensures |tags| <= 6
  {
    tags := AppendKeywordTags(content, category);
    TagsBuilt(content, category, tags);
    tags := PySeq.Dedup(tags);
  }

  /** The list the five tests build is the category followed by the keyword tags. */
  lemma TagsBuilt(content: string, category: string, tags: seq<string>)
    requires tags == [category] + KeywordTags(content, 5)
    ensures category in tags
    ensures |tags| <= 6
    ensures forall k :: 0 <= k < |Words| ==>
              (TagNames[k] in tags <==> Mentions(content, Words[k]) || TagNames[k] == category)
    ensures forall t :: t in tags ==> t == category || t in TagNames
  {
    KeywordTagsExact(content, 5);
    assert TagNames[..5] == TagNames;
  }
}
