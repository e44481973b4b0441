/*
 * The user entity: a mutable bean with eight nullable fields, and the
 * value it holds at any moment (what is serialised, stored or compared).
 */
module Users {
  import opened JavaLang

  /** A `LocalDateTime`, held as its ISO-8601 rendering (what its `toString` prints). */
  datatype DateTime = DateTime(iso: string)

  /** The eight fields of a user, each of which may be `null`. */
  datatype UserValue = UserValue(
    id: Option<int>,
    username: Option<string>,
    email: Option<string>,
    password: Option<string>,
    score: Option<int>,
    walletAddress: Option<string>,
    walletType: Option<string>,
    bindTime: Option<DateTime>)

  /** The state `new User()` leaves behind. */
  const EmptyUser: UserValue := UserValue(None, None, None, None, None, None, None, None)

  /** The fields of the entity, by which the JSON property names are given. */
  datatype UserField =
    | IdField | UsernameField | EmailField | PasswordField
    | ScoreField | WalletAddressField | WalletTypeField | BindTimeField

  /** The `@JsonProperty` name of each field. */
  function WireName(f: UserField): string {
    match f
    case IdField => "id"
    case UsernameField => "username"
    case EmailField => "email"
    case PasswordField => "password"
    case ScoreField => "score"
    case WalletAddressField => "wallet_address"
    case WalletTypeField => "wallet_type"
    case BindTimeField => "bind_time"
  }

  /** No two fields share a JSON name, so a JSON object determines every field. */
  lemma WireNamesDistinct(f: UserField, g: UserField)
    ensures WireName(f) == WireName(g) <==> f == g
  {
  }

  /** How `"..." + x` renders a nullable string, int or date-time. */
  function StringText(s: Option<string>): string {
    match s
    case None => "null"
    case Some(v) => v
  }

  function IntegerText(n: Option<int>): string {
    match n
    case None => "null"
    case Some(v) => IntText(v)
  }

  function DateTimeText(d: Option<DateTime>): string {
    match d
    case None => "null"
    case Some(v) => v.iso
  }

  /** The text `toString` prints for a field other than the password. */
  function FieldText(u: UserValue, f: UserField): string
    requires f != PasswordField
  {
    match f
    case IdField => IntegerText(u.id)
    case UsernameField => StringText(u.username)
    case EmailField => StringText(u.email)
    case ScoreField => IntegerText(u.score)
    case WalletAddressField => StringText(u.walletAddress)
    case WalletTypeField => StringText(u.walletType)
    case BindTimeField => DateTimeText(u.bindTime)
  }

  /** The fields `toString` prints, in the order it prints them. */
  const Shown: seq<UserField> :=
    [IdField, UsernameField, EmailField, ScoreField, WalletAddressField, WalletTypeField, BindTimeField]

  /** The fixed text around and between the printed fields. */
  const Labels: seq<string> :=
    ["User{id=", ", username='", "', email='", "', score=", ", walletAddress='", "', walletType='", "', bindTime=", "}"]

  /** Labels and field texts interleaved: `labels[0] + texts[0] + labels[1] + ... + labels[n]`. */
  function Render(labels: seq<string>, texts: seq<string>): (r: string)
    requires |labels| == |texts| + 1
    ensures |r| >= |labels[0]| && r[..|labels[0]|] == labels[0]
    ensures |r| >= |labels[|labels| - 1]| && r[|r| - |labels[|labels| - 1]|..] == labels[|labels| - 1]
  {
    if texts == [] then labels[0]
    else
      var rest := Render(labels[1..], texts[1..]);
      var r := labels[0] + texts[0] + rest;
      assert r[|r| - |rest|..] == rest;
      r
  }

  /** `User.toString()`: every field except the password, between `User{id=` and `}`. */
  function Describe(u: UserValue): (r: string)
    ensures |r| > 8 && r[..8] == "User{id=" && r[|r| - 1] == '}'
  {
    assert Labels[0] == "User{id=" && Labels[|Labels| - 1] == "}";
    Render(Labels, seq(|Shown|, k requires 0 <= k < |Shown| => FieldText(u, Shown[k])))
  }

  /** The text of `toString` does not depend on the password at all. */
  lemma DescribeOmitsPassword(u: UserValue, password: Option<string>)
    ensures Describe(u.(password := password)) == Describe(u)
  {
    var v := u.(password := password);
    var tu := seq(|Shown|, k requires 0 <= k < |Shown| => FieldText(u, Shown[k]));
    var tv := seq(|Shown|, k requires 0 <= k < |Shown| => FieldText(v, Shown[k]));
    assert forall k :: 0 <= k < |Shown| ==> tv[k] == tu[k];
    assert tv == tu;
  }

  /** Texts that differ in one slot render differently. */
  lemma {:induction false} RenderSlot(labels: seq<string>, texts: seq<string>, others: seq<string>, k: nat)
    requires |labels| == |texts| + 1 && |others| == |texts| && k < |texts|
    requires texts[k] != others[k]
    requires forall i :: 0 <= i < |texts| && i != k ==> texts[i] == others[i]
    ensures Render(labels, texts) != Render(labels, others)
  {
    var x, y := Render(labels, texts), Render(labels, others);
    if k == 0 {
      var rest := Render(labels[1..], texts[1..]);
      assert texts[1..] == others[1..];
      if |texts[0]| == |others[0]| {
        var j :| 0 <= j < |texts[0]| && texts[0][j] != others[0][j];
        assert x[|labels[0]| + j] == texts[0][j];
        assert y[|labels[0]| + j] == others[0][j];
      } else {
        assert |x| != |y|;
      }
    } else {
      RenderSlot(labels[1..], texts[1..], others[1..], k - 1);
      var p := labels[0] + texts[0];
      assert texts[0] == others[0];
      assert x == p + Render(labels[1..], texts[1..]);
      assert y == p + Render(labels[1..], others[1..]);
      assert x[|p|..] == Render(labels[1..], texts[1..]);
      assert y[|p|..] == Render(labels[1..], others[1..]);
    }
  }

  /**
   * Every field but the password is shown: two users whose printed texts
   * differ in one of those fields, and agree on the others, print differently.
   */
  lemma DescribeShowsField(u: UserValue, v: UserValue, f: UserField)
    requires f != PasswordField && FieldText(u, f) != FieldText(v, f)
    requires forall g :: g != PasswordField && g != f ==> FieldText(u, g) == FieldText(v, g)
    ensures Describe(u) != Describe(v)
  {
    var tu := seq(|Shown|, k requires 0 <= k < |Shown| => FieldText(u, Shown[k]));
    var tv := seq(|Shown|, k requires 0 <= k < |Shown| => FieldText(v, Shown[k]));
    assert f in Shown;
    var k :| 0 <= k < |Shown| && Shown[k] == f;
    RenderSlot(Labels, tu, tv, k);
  }

  /** An `Integer` field prints differently for different values, `null` included. */
  lemma IntegerTextInjective(a: Option<int>, b: Option<int>)
    requires IntegerText(a) == IntegerText(b)
    ensures a == b
  {
    match (a, b)
    case (Some(n), Some(m)) => IntTextInjective(n, m);
    case _ =>
  }

  /** Changing the id of a user always changes its `toString`. */
  lemma DescribeShowsId(u: UserValue, id: Option<int>)
    requires id != u.id
    ensures Describe(u.(id := id)) != Describe(u)
  {
    if IntegerText(id) == IntegerText(u.id) {
      IntegerTextInjective(id, u.id);
    }
    DescribeShowsField(u.(id := id), u, IdField);
  }

  /** The mutable bean. */
  class User {
    var id: Option<int>
    var username: Option<string>
    var email: Option<string>
    var password: Option<string>
    var score: Option<int>
    var walletAddress: Option<string>
    var walletType: Option<string>
    var bindTime: Option<DateTime>

    /** The eight fields as one value. */
    function Value(): UserValue
      reads this
    {
      UserValue(id, username, email, password, score, walletAddress, walletType, bindTime)
    }

    /** `new User()`: every field null, the id included. */
    constructor ()
      ensures Value() == EmptyUser
    {
      id, username, email, password := None, None, None, None;
      score, walletAddress, walletType, bindTime := None, None, None, None;
    }

    /** The all-arguments constructor stores each argument in its own field. */
    constructor WithFields(id: Option<int>, username: Option<string>, email: Option<string>,
                           password: Option<string>, score: Option<int>,
                           walletAddress: Option<string>, walletType: Option<string>,
                           bindTime: Option<DateTime>)
      ensures Value() == UserValue(id, username, email, password, score, walletAddress, walletType, bindTime)
    {
      this.id := id;
      this.username := username;
      this.email := email;
      this.password := password;
      this.score := score;
      this.walletAddress := walletAddress;
      this.walletType := walletType;
      this.bindTime := bindTime;
    }

    function GetId(): Option<int> reads this { id }
    function GetUsername(): Option<string> reads this { username }
    function GetEmail(): Option<string> reads this { email }
    function GetPassword(): Option<string> reads this { password }
    function GetScore(): Option<int> reads this { score }
    function GetWalletAddress(): Option<string> reads this { walletAddress }
    function GetWalletType(): Option<string> reads this { walletType }
    function GetBindTime(): Option<DateTime> reads this { bindTime }

    method SetId(id: Option<int>)
      modifies this
      ensures Value() == old(Value()).(id := id)
      ensures GetId() == id
    {
      this.id := id;
    }

    method SetUsername(username: Option<string>)
      modifies this
      ensures Value() == old(Value()).(username := username)
      ensures GetUsername() == username
    {
      this.username := username;
    }

    method SetEmail(email: Option<string>)
      modifies this
      ensures Value() == old(Value()).(email := email)
      ensures GetEmail() == email
    {
      this.email := email;
    }

    method SetPassword(password: Option<string>)
      modifies this
      ensures Value() == old(Value()).(password := password)
      ensures GetPassword() == password
    {
      this.password := password;
    }

    method SetScore(score: Option<int>)
      modifies this
      ensures Value() == old(Value()).(score := score)
      ensures GetScore() == score
    {
      this.score := score;
    }

    method SetWalletAddress(walletAddress: Option<string>)
      modifies this
      ensures Value() == old(Value()).(walletAddress := walletAddress)
      ensures GetWalletAddress() == walletAddress
    {
      this.walletAddress := walletAddress;
    }

    method SetWalletType(walletType: Option<string>)
      modifies this
      ensures Value() == old(Value()).(walletType := walletType)
      ensures GetWalletType() == walletType
    {
      this.walletType := walletType;
    }

    method SetBindTime(bindTime: Option<DateTime>)
      modifies this
      ensures Value() == old(Value()).(bindTime := bindTime)
      ensures GetBindTime() == bindTime
    {
      this.bindTime := bindTime;
    }

    /** `toString()` on the current state. */
    function ToString(): string
      reads this
    {
      Describe(Value())
    }
  }
}
