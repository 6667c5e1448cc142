/**
 * The user table behind `CustomUser.objects`: rows keyed by primary key,
 * with the two unique columns of users/models.py (email and username)
 * enforced by the database on every write.
 */
module Store {
  import opened Wrappers
  import opened Text
  import opened Accounts

  /** What Django raises when a write breaks a unique column. */
  datatype DbError = IntegrityError

  /** Another row already holds this record's email or username. */
  predicate Clashes(accounts: map<nat, Account>, a: Account)
  {
    exists pk :: pk in accounts && pk != a.pk && (accounts[pk].email == a.email || accounts[pk].username == a.username)
  }

  /** Some row holds this email: `CustomUser.objects.filter(email=email).exists()`. */
  predicate EmailInUse(accounts: map<nat, Account>, email: string)
  {
    exists pk :: pk in accounts && accounts[pk].email == email
  }

  /** A row other than `self` holds this email: `.filter(email=email).exclude(id=self)`. */
  predicate EmailInUseByOther(accounts: map<nat, Account>, self: nat, email: string)
  {
    exists pk :: pk in accounts && pk != self && accounts[pk].email == email
  }

  /** Some row holds this username. */
  predicate UsernameInUse(accounts: map<nat, Account>, username: string)
  {
    exists pk :: pk in accounts && accounts[pk].username == username
  }

  /** A row other than `self` holds this username (the unique check of `validate_unique`). */
  predicate UsernameInUseByOther(accounts: map<nat, Account>, self: nat, username: string)
  {
    exists pk :: pk in accounts && pk != self && accounts[pk].username == username
  }

  /** Keys are the rows' own pks, below the next pk to hand out, and the unique columns are unique. */
  ghost predicate Consistent(accounts: map<nat, Account>, nextPk: nat)
  {
    && 0 < nextPk
    && (forall pk :: pk in accounts ==> accounts[pk].pk == pk && 0 < pk < nextPk)
    && (forall p, q :: p in accounts && q in accounts && accounts[p].email == accounts[q].email ==> p == q)
    && (forall p, q :: p in accounts && q in accounts && accounts[p].username == accounts[q].username ==> p == q)
  }

  /**
   * `CustomUser.objects.get(pk=uid)` after the uid of a link has been
   * decoded: `None` when decoding failed, when the text is no number, or
   * when no row has that pk (the exceptions the views catch).
   */
  function LookUp(accounts: map<nat, Account>, uid: Option<string>): (r: Option<Account>)
    ensures r.Some? <==> uid.Some? && ParseDecimal(uid.value).Some? && ParseDecimal(uid.value).value in accounts
    ensures r.Some? ==> r.value == accounts[ParseDecimal(uid.value).value]
  {
    match uid
    case None => None
    case Some(text) =>
      match ParseDecimal(text)
      case None => None
      case Some(pk) => if pk in accounts then Some(accounts[pk]) else None
  }

  /** The link of a stored account decodes back to that account. */
  lemma LookUpOwnLink(accounts: map<nat, Account>, pk: nat)
    requires pk in accounts
    ensures LookUp(accounts, Some(Decimal(pk))) == Some(accounts[pk])
  {
    DecimalRoundTrip(pk);
  }

  /** A stored row written back with its own email and username never clashes. */
  lemma RewriteNeverClashes(accounts: map<nat, Account>, nextPk: nat, a: Account)
    requires Consistent(accounts, nextPk) && a.pk in accounts
    requires a.email == accounts[a.pk].email && a.username == accounts[a.pk].username
    ensures !Clashes(accounts, a)
  {
  }

  class Database {
    var accounts: map<nat, Account>
    var nextPk: nat

    ghost predicate Valid()
      reads this
    {
      Consistent(accounts, nextPk)
    }

    constructor ()
      ensures Valid() && accounts == map[] && nextPk == 1
    {
      accounts := map[];
      nextPk := 1;
    }

    /**
     * `instance.save()`: an INSERT that assigns the next pk for a new
     * instance (pk 0), an UPDATE of every column for a stored one. A
     * clash on a unique column raises and writes nothing.
     */
    method Save(a: Account) returns (r: Result<Account, DbError>)
      requires Valid()
      requires a.pk == 0 || a.pk in accounts
      modifies this
      ensures Valid()
      ensures r.Success? <==> !Clashes(old(accounts), a)
      ensures r.Success? && a.pk == 0 ==>
        r.value == a.(pk := old(nextPk)) && accounts == old(accounts)[old(nextPk) := r.value] && nextPk == old(nextPk) + 1
      ensures r.Success? && a.pk != 0 ==>
        r.value == a && accounts == old(accounts)[a.pk := a] && nextPk == old(nextPk)
      ensures r.Failure? ==> accounts == old(accounts) && nextPk == old(nextPk)
    {
      if Clashes(accounts, a) {
        return Failure(IntegrityError);
      }
      if a.pk == 0 {
        var row := a.(pk := nextPk);
        accounts := accounts[nextPk := row];
        nextPk := nextPk + 1;
        r := Success(row);
      } else {
        accounts := accounts[a.pk := a];
        r := Success(a);
      }
    }

    /** `instance.save(update_fields=["email_confirmed"])`: that one column of the stored row is written. */
    method SaveEmailConfirmed(a: Account)
      requires Valid() && a.pk in accounts
      modifies this
      ensures Valid()
      ensures accounts == old(accounts)[a.pk := old(accounts)[a.pk].(emailConfirmed := a.emailConfirmed)]
      ensures nextPk == old(nextPk)
    {
      accounts := accounts[a.pk := accounts[a.pk].(emailConfirmed := a.emailConfirmed)];
    }

    /**
     * `CustomUser.objects.filter(email=email).first()`: the row with that
     * email if there is one (with unique emails there is at most one, so
     * the ordering of `first` does not matter).
     */
    method FirstWithEmail(email: string) returns (r: Option<Account>)
      requires Valid()
      ensures r.Some? <==> EmailInUse(accounts, email)
      ensures r.Some? ==> r.value.pk in accounts && accounts[r.value.pk] == r.value && r.value.email == email
    {
      if pk :| pk in accounts && accounts[pk].email == email {
        r := Some(accounts[pk]);
      } else {
        r := None;
      }
    }
  }
}
