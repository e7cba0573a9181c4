/** The `user_training_progress` table and the enrolment and payment life
    cycle the training routes drive on it. A row is keyed by (user,
    training); only its payment status matters here. */
module Trainings {

  datatype PaymentStatus = Pending | Paid

  /** `POST /api/trainings/:id/start`: the existing row, a new one, or a
      server error when the insert is refused. */
  datatype StartReply = AlreadyStarted(status: PaymentStatus) | Started | StartFailed

  /** `POST /api/trainings/:id/enroll`: 400, 404 or success. */
  datatype EnrollReply = AlreadyEnrolled | TrainingNotFound | Enrolled

  /** `POST /api/trainings/:id/confirm-payment`: success or 404. */
  datatype ConfirmReply = Confirmed | EnrolmentNotFound

  /** The table, and the ids of `training_modules` its foreign key points to. */
  class TrainingTable {
    const catalogue: set<int>
    var progress: map<(int, int), PaymentStatus>

    /** The foreign key holds: every row names a known training. */
    ghost predicate Valid()
      reads this
    {
      forall key :: key in progress ==> key.1 in catalogue
    }

    constructor (catalogue: set<int>)
      ensures Valid() && this.catalogue == catalogue && progress == map[]
    {
      this.catalogue := catalogue;
      progress := map[];
    }

    /** `start`: an existing row is returned untouched; otherwise a pending
        row is inserted, unless the foreign key refuses an unknown training. */
    method Start(user: int, training: int) returns (reply: StartReply)
      requires Valid()
      modifies this
      ensures Valid()
      ensures (user, training) in old(progress) ==>
        reply == AlreadyStarted(old(progress)[(user, training)]) && progress == old(progress)
      ensures (user, training) !in old(progress) && training !in catalogue ==>
        reply == StartFailed && progress == old(progress)
      ensures (user, training) !in old(progress) && training in catalogue ==>
        reply == Started && progress == old(progress)[(user, training) := Pending]
      ensures forall u, t :: CertificateAllowed(u, t) <==> old(CertificateAllowed(u, t))
    {
      var key := (user, training);
      if key in progress {
        return AlreadyStarted(progress[key]);
      }
      if training !in catalogue {
        return StartFailed;
      }
      progress := progress[key := Pending];
      reply := Started;
    }

    /** `enroll`: refused with no insert when a row exists, 404 for an
        unknown training, otherwise one pending row. */
    method Enroll(user: int, training: int) returns (reply: EnrollReply)
      requires Valid()
      modifies this
      ensures Valid()
      ensures (user, training) in old(progress) ==> reply == AlreadyEnrolled && progress == old(progress)
      ensures (user, training) !in old(progress) && training !in catalogue ==>
        reply == TrainingNotFound && progress == old(progress)
      ensures (user, training) !in old(progress) && training in catalogue ==>
        reply == Enrolled && progress == old(progress)[(user, training) := Pending]
      ensures forall u, t :: CertificateAllowed(u, t) <==> old(CertificateAllowed(u, t))
    {
      var key := (user, training);
      if key in progress {
        return AlreadyEnrolled;
      }
      if training !in catalogue {
        return TrainingNotFound;
      }
      progress := progress[key := Pending];
      reply := Enrolled;
    }

    /** `confirm-payment`: the row becomes paid; with no row nothing changes
        and the reply is 404. */
    method ConfirmPayment(user: int, training: int) returns (reply: ConfirmReply)
      requires Valid()
      modifies this
      ensures Valid()
      ensures (user, training) in old(progress) ==>
        reply == Confirmed && progress == old(progress)[(user, training) := Paid]
      ensures (user, training) !in old(progress) ==> reply == EnrolmentNotFound && progress == old(progress)
      ensures CertificateAllowed(user, training) <==> (user, training) in old(progress)
      ensures forall u, t :: (u, t) != (user, training) ==> (CertificateAllowed(u, t) <==> old(CertificateAllowed(u, t)))
    {
      var key := (user, training);
      if key !in progress {
        return EnrolmentNotFound;
      }
      progress := progress[key := Paid];
      reply := Confirmed;
    }

    /** The training certificate's query: a paid row joined to its training. */
    predicate CertificateAllowed(user: int, training: int)
      reads this
    {
      (user, training) in progress && progress[(user, training)] == Paid && training in catalogue
    }
  }

  /** One path through the three routes on a fresh row: enrolling twice and
      starting leave the certificate refused, confirming the payment allows
      it. */
  method Lifecycle(t: TrainingTable, user: int, training: int)
    requires t.Valid() && training in t.catalogue && (user, training) !in t.progress
    modifies t
    ensures t.Valid() && t.CertificateAllowed(user, training)
  {
    var e := t.Enroll(user, training);
    assert e == Enrolled && !t.CertificateAllowed(user, training);
    var again := t.Enroll(user, training);
    assert again == AlreadyEnrolled;
    var s := t.Start(user, training);
    assert s == AlreadyStarted(Pending) && !t.CertificateAllowed(user, training);
    var c := t.ConfirmPayment(user, training);
    assert c == Confirmed;
  }
}
