/** ElasticsearchWorkOrderSearchIndex as it is written: whole-document upserts, and the rebuild loop. */
module SearchIndexing {
  import opened Domain
  import opened Outbox
  import opened SearchIndex

  class ElasticsearchWorkOrderSearchIndex {
    var documents: map<int, SearchDocument>

    constructor ()
      ensures documents == map[]
    {
      documents := map[];
    }

    /** Creates or overwrites one document. An invalid response raises, whether or not the write took effect. */
    method IndexAsync(document: SearchDocument, o: Send) returns (raised: bool)
      modifies this
      ensures documents == if o.SendThrew? then old(documents) else old(documents)[document.id := document]
      ensures raised <==> !o.Sent?
    {
      if !o.SendThrew? {
        documents := documents[document.id := document];
      }
      raised := !o.Sent?;
    }

    method DeleteByQuery(organizationId: int, delete: Delete) returns (raised: bool)
      modifies this
      ensures documents == Cleared(old(documents), organizationId, if delete.Deleted? then {} else delete.survivors)
      ensures raised <==> delete.DeleteFailed?
    {
      var survivors := if delete.Deleted? then {} else delete.survivors;
      documents := map id | id in documents && (documents[id].organizationId != organizationId || id in survivors) ::
        documents[id];
      raised := delete.DeleteFailed?;
    }

    /** Clears one organization, then re-adds its documents until one call raises. Returns whether it ran to its end. */
    method RebuildOrganizationIndexAsync(organizationId: int, list: seq<SearchDocument>, delete: Delete,
                                         script: seq<Send>)
      returns (done: bool)
      requires |script| == |list|
      modifies this
      ensures (documents, done) == Rebuild(old(documents), organizationId, list, delete, script)
    {
      var raised := DeleteByQuery(organizationId, delete);
      if raised { return false; }
      ghost var cleared := documents;
      for i := 0 to |list|
        invariant Readd(documents, list[i..], script[i..]) == Readd(cleared, list, script)
      {
        assert list[i..][1..] == list[i + 1..] && script[i..][1..] == script[i + 1..];
        raised := IndexAsync(list[i], script[i]);
        if raised { return false; }
      }
      done := true;
    }
  }
}
