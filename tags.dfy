/** The comma-separated tag text of the feedback forms and the tag list stored in a record. */
module Tags {
  import Seqs
  import Text

  /** A tag that survives parsing unchanged: non-empty, trimmed, without a comma. */
  predicate WellFormedTag(t: string) {
    t != "" && Text.IsTrimmed(t) && ',' !in t
  }

  /** `tags.split(",").map(t => t.trim()).filter(Boolean)`. */
  function ParseTags(tags: string): (r: seq<string>)
    ensures forall i :: 0 <= i < |r| ==> WellFormedTag(r[i])
  {
    var pieces := Text.Split(tags, ',');
    var trimmed := Seqs.Map(Text.Trim, pieces);
    var r := Seqs.Filter((t: string) => t != "", trimmed);
    assert forall i :: 0 <= i < |trimmed| ==> ',' !in trimmed[i] by {
      forall i | 0 <= i < |trimmed|
        ensures ',' !in trimmed[i]
      {
        assert ',' !in pieces[i];
      }
    }
    r
  }

  /** The text handleEdit puts in the tag field: `tags.join(", ")`. */
  function TagText(tags: seq<string>): string {
    Text.Join(tags, ", ")
  }

  /**
   * Splitting joined tags on commas gives the first tag, then every other tag behind the
   * blank that followed its comma.
   */
  lemma {:induction false} SplitJoinedTags(tags: seq<string>)
    requires |tags| >= 1
    requires forall i :: 0 <= i < |tags| ==> ',' !in tags[i]
    ensures var r := Text.Split(TagText(tags), ',');
            |r| == |tags| && r[0] == tags[0] &&
            forall i :: 1 <= i < |tags| ==> r[i] == " " + tags[i]
  {
    if |tags| == 1 {
      Text.SplitNoSeparator(tags[0], ',');
    } else {
      var rest := tags[1..];
      var j := TagText(rest);
      SplitJoinedTags(rest);
      var sj := Text.Split(j, ',');
      assert TagText(tags) == tags[0] + [','] + ([' '] + j);
      Text.SplitAtSeparator(tags[0], ',', [' '] + j);
      Text.SplitCons(' ', j, ',');
      var r := Text.Split(TagText(tags), ',');
      assert r == [tags[0]] + ([[' '] + sj[0]] + sj[1..]);
      forall i | 1 <= i < |tags|
        ensures r[i] == " " + tags[i]
      {
        if i > 1 {
          assert r[i] == sj[i - 1] && rest[i - 1] == tags[i];
        }
      }
    }
  }

  /**
   * Editing then saving gives back the tag list: joining with ", " and parsing again is the
   * identity on lists of well-formed tags (the empty list included).
   */
  lemma TagsRoundTrip(tags: seq<string>)
    requires forall i :: 0 <= i < |tags| ==> WellFormedTag(tags[i])
    ensures ParseTags(TagText(tags)) == tags
  {
    if tags == [] {
      assert Text.Split("", ',') == [""];
      assert Seqs.Map(Text.Trim, [""]) == [""];
    } else {
      SplitJoinedTags(tags);
      var pieces := Text.Split(TagText(tags), ',');
      var trimmed := Seqs.Map(Text.Trim, pieces);
      forall i | 0 <= i < |tags|
        ensures trimmed[i] == tags[i]
      {
        Text.TrimTrimmed(tags[i]);
        if i > 0 {
          Text.TrimLeadingSpace(' ', tags[i]);
        }
      }
      assert trimmed == tags;
      Seqs.FilterAll((t: string) => t != "", tags);
    }
  }
}
