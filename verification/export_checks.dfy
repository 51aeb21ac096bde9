/** What the exporter checks of each row it reads, whatever the database holds, and how it refuses. */
module ExportChecks {
  import opened Base
  import opened Text
  import opened Schema
  import opened Content
  import opened Projection
  import opened Exporting
  import opened SnapshotMeaning
  import Graph

  // The fields of a published revision, complete for its kind.
  predicate FieldsStand(rules: Rules, kind: Kind, f: Fields) {
    && f.byline > 0 && ValidSlug(f.slug) && rules.prose(f.prose, true) == None
    && var p := f.payload;
       match kind
       case Post => p == PostPayload
       case Note =>
         && p.NotePayload? && 0 <= p.order <= 1000000 && ValidSlug(p.groupSlug) && !Blank(p.mirror.name)
         && |p.mirror.name| <= 100 && |p.mirror.description| <= 1000 && 0 <= p.mirror.order <= 1000000
       case Topic => p.TopicPayload? && 0 <= p.order <= 1000000 && 0 <= p.recommendedCount <= 100
       case CuratedArticle => p.CuratedPayload? && rules.source(p.source, true)
  }

  // English only where there can be any, and sound when it is switched on.
  predicate EnglishStands(rules: Rules, kind: Kind, f: Fields) {
    f.english.Some? && f.english.value.enabled ==>
      && (kind == CuratedArticle || kind == Topic)
      && rules.english(kind, if f.payload.NotePayload? then f.payload.(mirror := Mirror("", "", 0)) else f.payload,
                       f.english.value, true) == None
  }

  predicate GroupStands(g: Group) {
    && ValidSlug(g.slug) && !Blank(g.name) && |g.name| <= 100 && |g.description| <= 1000
    && |g.nameEn| <= 100 && |g.descriptionEn| <= 1000 && 0 <= g.order <= 1000000
  }

  // Everything the row refers to was found.
  predicate FoundAll(rules: Rules, row: PublicRow) {
    && row.joins.author.Some? && rules.markdown(row.joins.author.value.bio)
    && (row.revision.fields.cover.Some? ==> row.joins.card.Some?)
    && (forall i | 0 <= i < |row.joins.tags| :: row.joins.tags[i].Some?)
    && (row.kind == Note ==> row.joins.group.Some? && GroupStands(row.joins.group.value.group))
  }

  predicate RowStands(rules: Rules, row: PublicRow) {
    var f := row.revision.fields;
    && row.firstPublished.Some? && row.lastPublished.Some? && FieldsStand(rules, row.kind, f) && EnglishStands(rules, row.kind, f)
    && row.canonicalPath == Some(Address(row.kind, f.slug, f.payload)) && FoundAll(rules, row)
  }

  /** A row is accepted exactly in these words. */
  lemma RowChecksMean(rules: Rules, row: PublicRow)
    ensures RowValid(rules, row) <==> RowStands(rules, row)
  {
    FieldsMean(rules, row);
    EnglishMeans(rules, row);
    hide ValidSlug, Blank, SoundFields, FieldsStand, SoundEnglish, EnglishStands;
  }

  lemma FieldsMean(rules: Rules, row: PublicRow)
    ensures var f := row.revision.fields;
      SoundFields(rules, row) <==>
        (row.firstPublished.Some? && row.lastPublished.Some? && FieldsStand(rules, row.kind, f)
         && row.canonicalPath == Some(Address(row.kind, f.slug, f.payload)))
  {
    hide ValidSlug, Blank;
  }

  lemma EnglishMeans(rules: Rules, row: PublicRow)
    ensures SoundEnglish(rules, row) <==> EnglishStands(rules, row.kind, row.revision.fields)
  {
  }

  /** An export of another generation is stale; otherwise it succeeds only over an initialised site with every row sound. */
  lemma RefusalsMean(rules: Rules, b: Budget, v: View, generation: int)
    ensures Export(rules, b, v, generation) == Err(ExportFault.Stale) <==> v.generation != generation
    ensures Export(rules, b, v, generation).Ok? ==>
      v.ready && |v.rows| == v.expected && forall k | 0 <= k < |v.rows| :: RowStands(rules, v.rows[k])
  {
    hide Fits, Graph.Closed, RowValid, RowStands;
    forall k | 0 <= k < |v.rows|
      ensures RowValid(rules, v.rows[k]) <==> RowStands(rules, v.rows[k])
    {
      RowChecksMean(rules, v.rows[k]);
    }
  }
}
