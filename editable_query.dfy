/**
  The editable query box (components/editable-query.tsx): it shows the query
  it is given, lets the user edit a copy, hands a saved edit to its parent,
  and can ask the language model to refine the copy.

  The parent's `onQueryChange` is the value `HandleSaveEdit` returns; the
  parent passes a new query back in through `SyncQuery`. The fine-tune call
  arrives as the way its promise settled. The clipboard and the timer that
  clears `copied` are not modelled beyond the values they receive.
*/
module EditableQuery {
  import opened Wrappers
  import opened Actions

  const FineTuneErrorPrefix := "Fout bij fine-tuning: "
  const UnknownError := "Onbekende fout"

  class QueryEditor {
    /** The `query` prop. */
    var query: string
    /** The `platform` prop. */
    var platform: Platform
    var isEditing: bool
    var editedQuery: string
    var copied: bool
    var isFinetuning: bool
    var finetuneError: Option<string>

    /** Mounting with a query: the copy starts as the query; a missing
        platform prop means LinkedIn. */
    constructor(query: string, platform: Option<Platform>)
      ensures this.query == query && editedQuery == query
      ensures this.platform == platform.GetOr(LinkedIn)
      ensures !isEditing && !copied && !isFinetuning && finetuneError == None
    {
      this.query := query;
      this.platform := platform.GetOr(LinkedIn);
      isEditing := false;
      editedQuery := query;
      copied := false;
      isFinetuning := false;
      finetuneError := None;
    }

    /** A re-render with the prop `newQuery`: the effect on `[query]` resets
        the copy only when the prop actually changed, so a re-render with the
        same query keeps an edit in progress. */
    method SyncQuery(newQuery: string)
      modifies this
      ensures query == newQuery
      ensures editedQuery == (if newQuery != old(query) then newQuery else old(editedQuery))
      ensures platform == old(platform) && isEditing == old(isEditing) && copied == old(copied)
      ensures isFinetuning == old(isFinetuning) && finetuneError == old(finetuneError)
    {
      if newQuery != query {
        editedQuery := newQuery;
      }
      query := newQuery;
    }

    /** The edit button. */
    method StartEditing()
      modifies this
      ensures isEditing
      ensures query == old(query) && platform == old(platform) && editedQuery == old(editedQuery)
      ensures copied == old(copied) && isFinetuning == old(isFinetuning) && finetuneError == old(finetuneError)
    {
      isEditing := true;
    }

    /** Typing in the text area. */
    method SetEditedQuery(value: string)
      modifies this
      ensures editedQuery == value
      ensures query == old(query) && platform == old(platform) && isEditing == old(isEditing)
      ensures copied == old(copied) && isFinetuning == old(isFinetuning) && finetuneError == old(finetuneError)
    {
      editedQuery := value;
    }

    /** `handleSaveEdit`: the copy goes to the parent and editing ends. */
    method HandleSaveEdit() returns (committed: string)
      modifies this
      ensures committed == old(editedQuery) && !isEditing
      ensures query == old(query) && platform == old(platform) && editedQuery == old(editedQuery)
      ensures copied == old(copied) && isFinetuning == old(isFinetuning) && finetuneError == old(finetuneError)
    {
      committed := editedQuery;
      isEditing := false;
    }

    /** `handleCancelEdit`: the copy goes back to the query and editing ends;
        nothing reaches the parent. */
    method HandleCancelEdit()
      modifies this
      ensures editedQuery == query && !isEditing
      ensures query == old(query) && platform == old(platform)
      ensures copied == old(copied) && isFinetuning == old(isFinetuning) && finetuneError == old(finetuneError)
    {
      editedQuery := query;
      isEditing := false;
    }

    /** `copyToClipboard`: copies the query prop, not the edited copy. */
    method CopyToClipboard() returns (clipboard: string)
      modifies this
      ensures clipboard == old(query) && copied
      ensures query == old(query) && platform == old(platform) && isEditing == old(isEditing)
      ensures editedQuery == old(editedQuery) && isFinetuning == old(isFinetuning) && finetuneError == old(finetuneError)
    {
      clipboard := query;
      copied := true;
    }

    /** The timer callback two seconds after a copy. */
    method ClearCopied()
      modifies this
      ensures !copied
      ensures query == old(query) && platform == old(platform) && isEditing == old(isEditing)
      ensures editedQuery == old(editedQuery) && isFinetuning == old(isFinetuning) && finetuneError == old(finetuneError)
    {
      copied := false;
    }

    /** `handleFineTune`, with `outcome` the settled call of
        `FineTuneQueryAction` on the request it returns (the edited copy and
        the platform). A refined query replaces the copy; an error response
        shows its message; a rejection shows a prefixed message. */
    method HandleFineTune(outcome: Settled<QueryResponse>) returns (request: (string, Platform))
      modifies this
      ensures request == (old(editedQuery), old(platform))
      ensures !isFinetuning
      ensures outcome.Resolved? && outcome.value.QueryOk? ==>
                editedQuery == outcome.value.query && finetuneError == None
      ensures outcome.Resolved? && outcome.value.QueryError? ==>
                editedQuery == old(editedQuery) && finetuneError == Some(outcome.value.message)
      ensures outcome.Rejected? ==>
                editedQuery == old(editedQuery)
                && finetuneError == Some(FineTuneErrorPrefix + outcome.errorMessage.GetOr(UnknownError))
      ensures query == old(query) && platform == old(platform) && isEditing == old(isEditing) && copied == old(copied)
    {
      isFinetuning := true;
      finetuneError := None;
      request := (editedQuery, platform);
      match outcome {
        case Resolved(response) =>
          if response.QueryError? {
            finetuneError := Some(response.message);
          } else {
            editedQuery := response.query;
          }
        case Rejected(message) =>
          finetuneError := Some(FineTuneErrorPrefix + message.GetOr(UnknownError));
      }
      isFinetuning := false;
    }

    /** The fine-tune button when the model itself answers with `reply`: the
        action never rejects, so the copy becomes the model's text, or the
        action's fixed failure message is shown. */
    method FineTuneWithModel(reply: ModelReply) returns (request: (string, Platform))
      modifies this
      ensures request == (old(editedQuery), old(platform))
      ensures reply.Completion? ==> editedQuery == reply.text && finetuneError == None
      ensures reply.ModelFailure? ==>
                editedQuery == old(editedQuery) && finetuneError == Some(FineTuneFailedMessage)
      ensures !isFinetuning && query == old(query) && platform == old(platform) && isEditing == old(isEditing)
    {
      request := HandleFineTune(Resolved(FineTuneQueryAction(reply)));
    }
  }

  /** Editing and then cancelling leaves the box as it was: the copy is the
      query again and the parent hears nothing. */
  method CancelDiscardsEdit(query: string, edit: string) returns (shown: string, editing: bool)
    ensures shown == query && !editing
  {
    var box := new QueryEditor(query, None);
    box.StartEditing();
    box.SetEditedQuery(edit);
    box.HandleCancelEdit();
    shown, editing := box.editedQuery, box.isEditing;
  }

  /** Saving an edit and receiving it back as the new prop: the parent got
      the edit, and the box shows it both as the query and as the copy. */
  method SaveRoundTrip(query: string, edit: string) returns (committed: string, newQuery: string, shown: string)
    ensures committed == edit && newQuery == edit && shown == edit
  {
    var box := new QueryEditor(query, None);
    box.StartEditing();
    box.SetEditedQuery(edit);
    committed := box.HandleSaveEdit();
    box.SyncQuery(committed);
    newQuery, shown := box.query, box.editedQuery;
  }

  /** A refined query survives a re-render with the same prop, but is lost
      when the parent passes a different query. */
  method RefinedQueryAndProps(query: string, refined: string, other: string)
    returns (afterSame: string, afterOther: string)
    requires other != query
    ensures afterSame == refined && afterOther == other
  {
    var box := new QueryEditor(query, Some(Facebook));
    var request := box.HandleFineTune(Resolved(QueryOk(refined, None)));
    box.SyncQuery(query);
    afterSame := box.editedQuery;
    box.SyncQuery(other);
    afterOther := box.editedQuery;
  }
}
