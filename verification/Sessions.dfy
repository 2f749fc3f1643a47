/** The row of an interview session, and the statements that end it. Times are in
    microseconds. */
module Sessions {
  import opened Options

  type Time = int

  const MINUTE: Time := 60_000_000

  datatype Status = Active | Generating | Completed | Evaluating | Reviewed
                  | EvaluationFailed | Failed | Cancelled

  // `spoken` says whether the session has a message by the candidate.
  datatype Session = Session(user: nat, status: Status, duration: int, reserved: int,
                             started: Time, ended: Option<Time>, turnCount: int,
                             archived: bool, spoken: bool)

  predicate IsOpen(status: Status) { status == Active || status == Generating }

  // CompleteSession and CancelSession write the status whatever it was.
  function EndRow(row: Session, cancel: bool, turnCount: int, now: Time): Session {
    row.(status := if cancel then Cancelled else Completed, ended := Some(now), turnCount := turnCount,
         archived := row.archived || cancel)
  }

  predicate IsOverdue(row: Session, now: Time) {
    row.status == Active && row.started + (row.duration + 5) * MINUTE < now
  }

  function CancelEmpty(row: Session, now: Time): Session {
    if IsOverdue(row, now) && !row.spoken
    then row.(status := Cancelled, ended := Some(now), archived := true) else row
  }

  function CompleteSpoken(row: Session, now: Time): Session {
    if IsOverdue(row, now) && row.spoken
    then row.(status := Completed, ended := Some(now)) else row
  }
}
