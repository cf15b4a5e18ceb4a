/** The match-creation form (`pages/CreateMatch.tsx`): its fields, the
    change handler, the new-club sub-form, and the submit step that checks
    the required fields and builds the match request. `new Date(...)
    .toISOString()` is an oracle that yields the ISO text or nothing (it
    throws on an invalid date). */
module CreateMatchForm {
  import opened Common
  import opened Strings
  import opened ClientTypes

  datatype Form = Form(
    clubId: string,
    newClubName: string,
    newClubAddress: string,
    category: string,
    date: string,
    startTime: string,
    endTime: string,
    courtId: string)

  /** Every field starts empty. */
  const InitialForm := Form("", "", "", "", "", "", "", "")

  datatype Field = ClubId | NewClubName | NewClubAddress | Category | Date | StartTime | EndTime | CourtId

  function Get(f: Form, field: Field): string {
    match field
    case ClubId => f.clubId
    case NewClubName => f.newClubName
    case NewClubAddress => f.newClubAddress
    case Category => f.category
    case Date => f.date
    case StartTime => f.startTime
    case EndTime => f.endTime
    case CourtId => f.courtId
  }

  /** `{ ...prev, [field]: value }`: the named field takes the value, every
      other field is kept. */
  function WithField(f: Form, field: Field, value: string): (r: Form)
    ensures Get(r, field) == value
    ensures forall other :: other != field ==> Get(r, other) == Get(f, other)
  {
    match field
    case ClubId => f.(clubId := value)
    case NewClubName => f.(newClubName := value)
    case NewClubAddress => f.(newClubAddress := value)
    case Category => f.(category := value)
    case Date => f.(date := value)
    case StartTime => f.(startTime := value)
    case EndTime => f.(endTime := value)
    case CourtId => f.(courtId := value)
  }

  /** The last value written to a field is the one it holds. */
  lemma WithFieldTwice(f: Form, field: Field, v: string, w: string)
    ensures WithField(WithField(f, field, v), field, w) == WithField(f, field, w)
  {
  }

  /** The body of `createClub`. */
  datatype NewClubRequest = NewClubRequest(name: string, address: string)

  /** `handleCreateNewClub`: a request only when both name and address are
      given. */
  function NewClubOf(f: Form): (r: Option<NewClubRequest>)
    ensures r.Some? <==> f.newClubName != "" && f.newClubAddress != ""
    ensures r.Some? ==> r.value.name == f.newClubName && r.value.address == f.newClubAddress
  {
    if f.newClubName == "" || f.newClubAddress == "" then None
    else Some(NewClubRequest(f.newClubName, f.newClubAddress))
  }

  /** The body of `createMatch`. */
  datatype MatchDto = MatchDto(
    clubId: string,
    courtId: Option<string>,
    startDate: string,
    endDate: string,
    category: Num,
    status: MatchStatus,
    isCourtScheduled: bool)

  /** Where `handleSubmit` ends: one of its two alerts, the exception of an
      invalid date, or the request it sends. */
  datatype Submission = MissingClub | MissingFields | InvalidDate | Submit(dto: MatchDto)

  /** The local date-time text `${date}T${time}:00`. */
  function LocalDateTime(date: string, time: string): string {
    date + "T" + time + ":00"
  }

  predicate RequiredGiven(f: Form) {
    f.clubId != "" && f.category != "" && f.date != "" && f.startTime != "" && f.endTime != ""
  }

  /** `handleSubmit`. */
  function SubmissionOf(f: Form, toIso: string -> Option<string>): (r: Submission)
    ensures r == MissingClub <==> f.clubId == ""
    ensures r == MissingFields <==>
      f.clubId != "" && (f.category == "" || f.date == "" || f.startTime == "" || f.endTime == "")
    ensures r == InvalidDate <==>
      RequiredGiven(f) && (toIso(LocalDateTime(f.date, f.startTime)).None? || toIso(LocalDateTime(f.date, f.endTime)).None?)
    ensures r.Submit? ==>
      && RequiredGiven(f)
      && r.dto.clubId == f.clubId
      && r.dto.courtId == (if f.courtId == "" then None else Some(f.courtId))
      && Some(r.dto.startDate) == toIso(LocalDateTime(f.date, f.startTime))
      && Some(r.dto.endDate) == toIso(LocalDateTime(f.date, f.endTime))
      && r.dto.category == ParseNum(f.category)
      && r.dto.status == Pending && !r.dto.isCourtScheduled
  {
    if f.clubId == "" then MissingClub
    else if f.category == "" || f.date == "" || f.startTime == "" || f.endTime == "" then MissingFields
    else
      match toIso(LocalDateTime(f.date, f.startTime))
      case None => InvalidDate
      case Some(startDate) =>
        match toIso(LocalDateTime(f.date, f.endTime))
        case None => InvalidDate
        case Some(endDate) =>
          Submit(MatchDto(f.clubId, if f.courtId == "" then None else Some(f.courtId),
                          startDate, endDate, ParseNum(f.category), Pending, false))
  }

  /** The category select offers `cat.toString()` for 1 to 8, which parses
      back to that number. */
  lemma SelectedCategoryParses(cat: nat)
    ensures ParseNum(NatToString(cat)) == Finite(cat)
  {
    ParseIntOfNatToString(cat);
  }

  class CreateMatchPage {
    var form: Form
    var isCreatingNewClub: bool
    /** The requests sent by the two mutations so far. */
    var clubRequests: seq<NewClubRequest>
    var matchRequests: seq<MatchDto>

    constructor ()
      ensures form == InitialForm && !isCreatingNewClub && clubRequests == [] && matchRequests == []
    {
      form := InitialForm;
      isCreatingNewClub := false;
      clubRequests := [];
      matchRequests := [];
    }

    /** `handleChange`. */
    method HandleChange(field: Field, value: string)
      modifies this
      ensures form == WithField(old(form), field, value)
      ensures isCreatingNewClub == old(isCreatingNewClub)
      ensures clubRequests == old(clubRequests) && matchRequests == old(matchRequests)
    {
      form := WithField(form, field, value);
    }

    /** The buttons that open and close the new-club sub-form. */
    method SetIsCreatingNewClub(on: bool)
      modifies this
      ensures isCreatingNewClub == on && form == old(form)
      ensures clubRequests == old(clubRequests) && matchRequests == old(matchRequests)
    {
      isCreatingNewClub := on;
    }

    /** `handleCreateNewClub`: sends the request when both fields are given,
        otherwise only alerts. */
    method HandleCreateNewClub()
      modifies this
      ensures NewClubOf(old(form)).None? ==> clubRequests == old(clubRequests)
      ensures NewClubOf(old(form)).Some? ==> clubRequests == old(clubRequests) + [NewClubOf(old(form)).value]
      ensures form == old(form) && isCreatingNewClub == old(isCreatingNewClub)
      ensures matchRequests == old(matchRequests)
    {
      var request := NewClubOf(form);
      if request.Some? {
        clubRequests := clubRequests + [request.value];
      }
    }

    /** The club mutation's `onSuccess`: the new club becomes the selected
        one and the sub-form closes. */
    method OnClubCreated(newClubId: string)
      modifies this
      ensures form == old(form).(clubId := newClubId) && !isCreatingNewClub
      ensures clubRequests == old(clubRequests) && matchRequests == old(matchRequests)
    {
      form := form.(clubId := newClubId);
      isCreatingNewClub := false;
    }

    /** `handleSubmit`: sends the match request exactly when the submission
        gets that far. */
    method HandleSubmit(toIso: string -> Option<string>) returns (r: Submission)
      modifies this
      ensures r == SubmissionOf(old(form), toIso)
      ensures r.Submit? ==> matchRequests == old(matchRequests) + [r.dto]
      ensures !r.Submit? ==> matchRequests == old(matchRequests)
      ensures form == old(form) && isCreatingNewClub == old(isCreatingNewClub)
      ensures clubRequests == old(clubRequests)
    {
      r := SubmissionOf(form, toIso);
      if r.Submit? {
        matchRequests := matchRequests + [r.dto];
      }
    }
  }

  /** A created club's id satisfies the club check: the submission then
      stops for a club only if the id itself is empty. */
  lemma CreatedClubSelected(f: Form, newClubId: string, toIso: string -> Option<string>)
    requires newClubId != ""
    ensures SubmissionOf(f.(clubId := newClubId), toIso) != MissingClub
  {
  }
}
