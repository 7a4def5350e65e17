/** The Lead Details screen: loading a lead with its comments, classifying a
    load failure, and adding a comment. */
module LeadDetails {
  import opened CrmModel

  /** A comment as the server returns it; only what the screen reads. */
  datatype Comment = Comment(id: Id, commentText: string, authorName: Option<string>)

  /** The body posted to `/leads/:id/comments`, with the id it is posted for. */
  datatype CommentRequest = CommentRequest(leadId: Option<string>, commentText: string, author: Option<Id>)

  /** How the two requests of the load effect ended. `status` is the HTTP
      status of the failed response, `None` when there was no response. A
      lead or comment list of `None` is a response without data. */
  datatype LoadResult =
    | LeadFetchFailed(status: Option<int>)
    | CommentsFetchFailed(fetchedLead: Option<Lead>, status: Option<int>)
    | Loaded(loadedLead: Option<Lead>, loadedComments: Option<seq<Comment>>)

  /** How the comment request ended: the created comment, or any failure. */
  datatype SubmitResult = Created(comment: Comment) | Rejected

  /** What the screen renders, in the order its checks are made. */
  datatype View = LoadingView | ErrorView(message: string) | NotFoundView | DetailsView(lead: Lead)

  const InvalidIdMessage := "Invalid lead ID. Please check the URL."
  const NotFoundMessage := "Lead not found. It may have been deleted."
  const LoadFailedMessage := "Failed to load lead details. Please try again."
  const CommentFailedMessage := "Failed to submit comment. Please try again."

  /** The load error classification: a 404 response means the lead is gone,
      anything else (another status, or no response) is a generic failure. */
  function LoadErrorMessage(status: Option<int>): (msg: string)
    ensures msg == NotFoundMessage <==> status == Some(404)
    ensures msg == LoadFailedMessage <==> status != Some(404)
  {
    if status == Some(404) then NotFoundMessage else LoadFailedMessage
  }

  /** The characters `String.prototype.trim` removes: the ECMAScript
      WhiteSpace and LineTerminator code points. */
  predicate IsJsWhitespace(c: char) {
    c == '\t' || c == '\n' || c == '\U{0B}' || c == '\U{0C}' || c == '\r' || c == ' '
    || c == '\U{A0}' || c == '\U{1680}' || ('\U{2000}' <= c <= '\U{200A}')
    || c == '\U{2028}' || c == '\U{2029}' || c == '\U{202F}' || c == '\U{205F}'
    || c == '\U{3000}' || c == '\U{FEFF}'
  }

  /** `s` without its leading whitespace. */
  function TrimStart(s: string): (r: string)
    ensures |r| <= |s| && r == s[|s| - |r|..]
    ensures r != [] ==> !IsJsWhitespace(r[0])
    ensures forall i :: 0 <= i < |s| - |r| ==> IsJsWhitespace(s[i])
  {
    if s != [] && IsJsWhitespace(s[0]) then TrimStart(s[1..]) else s
  }

  /** `s` without its trailing whitespace. */
  function TrimEnd(s: string): (r: string)
    ensures |r| <= |s| && r == s[..|r|]
    ensures r != [] ==> !IsJsWhitespace(r[|r| - 1])
    ensures forall i :: |r| <= i < |s| ==> IsJsWhitespace(s[i])
  {
    if s != [] && IsJsWhitespace(s[|s| - 1]) then TrimEnd(s[..|s| - 1]) else s
  }

  /** `r` is the slice of `s` starting at `i`, with only whitespace before
      and after it. */
  predicate StrippedAt(s: string, r: string, i: int) {
    0 <= i && i + |r| <= |s| && r == s[i..i + |r|]
    && (forall j :: 0 <= j < i ==> IsJsWhitespace(s[j]))
    && (forall j :: i + |r| <= j < |s| ==> IsJsWhitespace(s[j]))
  }

  /** `s.trim()`: `s` with its leading and trailing whitespace removed. */
  function Trim(s: string): (r: string)
    ensures |r| <= |s|
    ensures exists i :: StrippedAt(s, r, i)
    ensures r != [] ==> !IsJsWhitespace(r[0]) && !IsJsWhitespace(r[|r| - 1])
  {
    var t := TrimStart(s);
    var r := TrimEnd(t);
    var i := |s| - |t|;
    assert r == s[i..i + |r|];
    forall j | i + |r| <= j < |s|
      ensures IsJsWhitespace(s[j])
    {
      assert s[j] == t[j - i];
    }
    assert StrippedAt(s, r, i);
    r
  }

  /** `!s.trim()`: the draft is blank exactly when it holds only whitespace,
      the empty draft included. */
  lemma TrimEmptyIffBlank(s: string)
    ensures Trim(s) == "" <==> forall i :: 0 <= i < |s| ==> IsJsWhitespace(s[i])
  {
  }

  /** `lead?.salesAgent?._id`: the author sent with a comment is the lead's
      agent when the lead is loaded and its agent is a populated document;
      otherwise it is absent. */
  function AuthorOf(lead: Option<Lead>): (author: Option<Id>)
    ensures author.Some? <==> lead.Some? && lead.value.salesAgent.Populated?
    ensures author.Some? ==> author.value == lead.value.salesAgent.id
  {
    match lead
    case Some(l) => (match l.salesAgent case Populated(id, _) => Some(id) case _ => None)
    case None => None
  }

  /** `lead.salesAgent?.name || "Unassigned"`. */
  function AgentLabel(lead: Lead): (shown: string)
    ensures shown == "Unassigned" <==> !lead.salesAgent.Populated? || lead.salesAgent.name in {"", "Unassigned"}
    ensures lead.salesAgent.Populated? && lead.salesAgent.name != "" ==> shown == lead.salesAgent.name
  {
    match lead.salesAgent
    case Populated(_, name) => if name != "" then name else "Unassigned"
    case _ => "Unassigned"
  }

  /** `comment.author?.name || "System"`. */
  function AuthorLabel(comment: Comment): (shown: string)
    ensures comment.authorName.Some? && comment.authorName.value != "" ==> shown == comment.authorName.value
    ensures comment.authorName.None? || comment.authorName.value == "" ==> shown == "System"
  {
    match comment.authorName
    case Some(name) => if name != "" then name else "System"
    case None => "System"
  }

  class LeadDetailsState {
    /** The `:id` route parameter. */
    const leadId: Option<string>
    var lead: Option<Lead>
    var comments: seq<Comment>
    var newComment: string
    var loading: bool
    var submitting: bool
    var error: Option<string>

    /** The state on mount. */
    constructor (id: Option<string>)
      ensures leadId == id
      ensures lead == None && comments == [] && newComment == ""
      ensures loading && !submitting && error == None
    {
      leadId := id;
      lead := None;
      comments := [];
      newComment := "";
      loading := true;
      submitting := false;
      error := None;
    }

    /** What is rendered: the loading message, then the error, then "Lead not
        found" when no lead is held, and the details otherwise. */
    function CurrentView(): (v: View)
      reads this
      ensures v == LoadingView <==> loading
      ensures v.ErrorView? <==> !loading && error.Some? && error.value != ""
      ensures v.ErrorView? ==> v.message == error.value
      ensures v.DetailsView? ==> lead == Some(v.lead)
      ensures !loading && (error.None? || error.value == "") ==>
        (v == NotFoundView <==> lead.None?) && (lead.Some? ==> v == DetailsView(lead.value))
    {
      if loading then LoadingView
      else if error.Some? && error.value != "" then ErrorView(error.value)
      else if lead.None? then NotFoundView
      else DetailsView(lead.value)
    }

    /** The submit button is enabled when nothing is being submitted and the
        draft holds a character that is not whitespace. */
    predicate SubmitEnabled()
      reads this
      ensures SubmitEnabled() <==>
        !submitting && exists i :: 0 <= i < |newComment| && !IsJsWhitespace(newComment[i])
    {
      TrimEmptyIffBlank(newComment);
      !submitting && Trim(newComment) != ""
    }

    /** The load effect. Without an id it fails at once and `fetched` is
        false; otherwise both requests are made and their outcome, `result`,
        sets the lead, the comments or the error. Loading ends in every case. */
    method Load(result: LoadResult) returns (fetched: bool)
      modifies this
      ensures fetched <==> leadId.Some? && leadId.value != ""
      ensures !loading
      ensures submitting == old(submitting) && newComment == old(newComment)
      ensures !fetched ==> error == Some(InvalidIdMessage) && lead == old(lead) && comments == old(comments)
      ensures fetched && result.LeadFetchFailed? ==>
        error == Some(LoadErrorMessage(result.status)) && lead == old(lead) && comments == old(comments)
      ensures fetched && result.CommentsFetchFailed? ==>
        error == Some(LoadErrorMessage(result.status)) && lead == result.fetchedLead && comments == old(comments)
      ensures fetched && result.Loaded? ==>
        error == old(error) && lead == result.loadedLead
        && comments == (if result.loadedComments.Some? then result.loadedComments.value else [])
      ensures !fetched || !result.Loaded? ==> CurrentView() == ErrorView(error.value)
      ensures fetched && result.Loaded? && result.loadedLead.Some? && old(error) == None ==>
        CurrentView() == DetailsView(result.loadedLead.value)
    {
      if leadId.None? || leadId.value == "" {
        error := Some(InvalidIdMessage);
        loading := false;
        return false;
      }
      fetched := true;
      loading := true;
      match result {
        case LeadFetchFailed(status) =>
          error := Some(LoadErrorMessage(status));
        case CommentsFetchFailed(l, status) =>
          lead := l;
          error := Some(LoadErrorMessage(status));
        case Loaded(l, cs) =>
          lead := l;
          comments := if cs.Some? then cs.value else [];
      }
      loading := false;
    }

    /** Typing in the comment box, which is disabled while submitting. */
    method EditComment(text: string)
      requires !submitting
      modifies this`newComment
      ensures newComment == text
    {
      newComment := text;
    }

    /** The first half of `handleSubmitComment`: a blank draft returns at once
        with nothing changed and no request; otherwise submission starts and
        the request carries the draft and the lead's agent as author. */
    method BeginSubmitComment() returns (request: Option<CommentRequest>)
      modifies this`submitting
      ensures request.None? <==> Trim(newComment) == ""
      ensures old(SubmitEnabled()) ==> request.Some?
      ensures request.None? ==> submitting == old(submitting)
      ensures request.Some? ==>
        submitting && request.value == CommentRequest(leadId, newComment, AuthorOf(lead))
    {
      if Trim(newComment) == "" {
        return None;
      }
      submitting := true;
      request := Some(CommentRequest(leadId, newComment, AuthorOf(lead)));
    }

    /** The second half of `handleSubmitComment`, once the request has ended:
        a created comment is appended and the draft cleared; a failure keeps
        the comments and the draft and sets the error. Submission ends either
        way. */
    method FinishSubmitComment(result: SubmitResult)
      requires submitting
      modifies this`comments, this`newComment, this`error, this`submitting
      ensures loading == old(loading) && lead == old(lead)
      ensures !submitting
      ensures result.Created? ==>
        comments == old(comments) + [result.comment] && newComment == "" && error == old(error)
      ensures result.Rejected? ==>
        comments == old(comments) && newComment == old(newComment) && error == Some(CommentFailedMessage)
      ensures result.Rejected? && !loading ==> CurrentView() == ErrorView(CommentFailedMessage)
    {
      match result {
        case Created(c) =>
          comments := comments + [c];
          newComment := "";
        case Rejected =>
          error := Some(CommentFailedMessage);
      }
      submitting := false;
    }
  }
}
