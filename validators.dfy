/** The request checks of registration, admin login, product creation and
    product update, and the documents those handlers build. A text field that is
    absent from the request body is the empty string here; JavaScript treats
    both as falsy. */
module Validators {
  import opened Wrappers
  import opened ObjectIds
  import opened Http
  import opened Tables

  /** The body of `POST /register`. */
  datatype RegistrationForm = RegistrationForm(
    username: string, email: string, password: string, confirmPassword: string,
    houseNo: string, street: string, city: string, state: string,
    pincode: string, country: string, phone: string)

  /** The eleven fields registration requires. */
  function RequiredFields(f: RegistrationForm): seq<string> {
    [f.username, f.email, f.password, f.confirmPassword, f.houseNo, f.street,
     f.city, f.state, f.pincode, f.country, f.phone]
  }

  predicate AllFilled(f: RegistrationForm) {
    forall i :: 0 <= i < |RequiredFields(f)| ==> RequiredFields(f)[i] != ""
  }

  /** `User.findOne({ email })` finds a user. */
  predicate EmailTaken(users: seq<User>, email: string) {
    exists u :: u in users && u.email == email
  }

  /** The status of a registration: 400 when a field is empty or the two
      passwords differ, 409 when the email is already registered, else 201. */
  function RegistrationStatus(form: RegistrationForm, users: seq<User>): (r: Status)
    ensures r == Created || r == BadRequest || r == Conflict
    ensures r == BadRequest <==> !AllFilled(form) || form.password != form.confirmPassword
    ensures r == Conflict <==> AllFilled(form) && form.password == form.confirmPassword && EmailTaken(users, form.email)
  {
    if form.username == "" || form.email == "" || form.password == "" || form.confirmPassword == ""
       || form.houseNo == "" || form.street == "" || form.city == "" || form.state == ""
       || form.pincode == "" || form.country == "" || form.phone == ""
    then
      assert !AllFilled(form) by {
        var fields := RequiredFields(form);
        assert fields[0] == form.username && fields[1] == form.email && fields[2] == form.password;
        assert fields[3] == form.confirmPassword && fields[4] == form.houseNo && fields[5] == form.street;
        assert fields[6] == form.city && fields[7] == form.state && fields[8] == form.pincode;
        assert fields[9] == form.country && fields[10] == form.phone;
      }
      BadRequest
    else if form.password != form.confirmPassword then BadRequest
    else if EmailTaken(users, form.email) then Conflict
    else Created
  }

  /** The user document registration saves: the form without `confirmPassword`,
      the password replaced by its hash, active by default. */
  function NewUser(id: Id, form: RegistrationForm, hashedPassword: string): User {
    User(id, form.username, form.email, hashedPassword, form.houseNo, form.street,
         form.city, form.state, form.pincode, form.country, form.phone, true)
  }

  /** Once a registration has succeeded, the same form is refused with 409. */
  lemma RegisterTwiceConflicts(form: RegistrationForm, users: seq<User>, id: Id, hashedPassword: string)
    requires RegistrationStatus(form, users) == Created
    ensures RegistrationStatus(form, users + [NewUser(id, form, hashedPassword)]) == Conflict
  {
    var added := NewUser(id, form, hashedPassword);
    assert added in users + [added];
  }

  /** The one fixed administrator credential pair. */
  const AdminUsername := "admin"
  const AdminPassword := "admin123"

  /** The status of `POST /adminlogin`: 400 when a field is empty, 401 unless
      both match the fixed credentials, else 200. */
  function AdminLoginStatus(username: string, password: string): (r: Status)
    ensures r == Ok || r == BadRequest || r == Unauthorized
    ensures r == Ok <==> username == AdminUsername && password == AdminPassword
    ensures r == BadRequest <==> username == "" || password == ""
  {
    if username == "" || password == "" then BadRequest
    else if username != AdminUsername || password != AdminPassword then Unauthorized
    else Ok
  }

  /** The body of `POST /api/productsadd`; any field may be absent. */
  datatype ProductForm = ProductForm(
    img: Option<string>, name: Option<string>, price: Option<int>,
    desc: Option<string>, category: Option<string>, rating: Option<int>)

  /** The product document to save under `id`, or 400 when the image or the name
      is missing. An absent price or rating is stored as 0. */
  function NewProduct(form: ProductForm, id: Id): (r: Result<Product, Status>)
    ensures r.Failure? <==> !TruthyText(form.img) || !TruthyText(form.name)
    ensures r.Failure? ==> r.error == BadRequest
    ensures r.Success? ==>
              && r.value.id == id
              && r.value.img == form.img.value && r.value.name == form.name.value
              && r.value.price == (if form.price.Some? then form.price.value else 0)
              && r.value.rating == (if form.rating.Some? then form.rating.value else 0)
              && r.value.desc == form.desc && r.value.category == form.category
  {
    if !TruthyText(form.img) || !TruthyText(form.name) then Failure(BadRequest)
    else
      Success(Product(
        id, form.img.value, form.name.value,
        if TruthyNumber(form.price) then form.price.value else 0,
        form.desc, form.category,
        if TruthyNumber(form.rating) then form.rating.value else 0))
  }

  /** The body of `PUT /api/products/:id`; an absent field is left as it is. */
  datatype ProductUpdate = ProductUpdate(
    name: Option<string>, price: Option<int>, desc: Option<string>,
    category: Option<string>, rating: Option<int>, img: Option<string>)

  function Override<T>(given: Option<T>, current: T): T {
    if given.Some? then given.value else current
  }

  /** `findByIdAndUpdate` with the update body: given fields replace the stored
      ones, absent fields and the id stay. */
  function ApplyUpdate(p: Product, upd: ProductUpdate): (r: Product)
    ensures r.id == p.id
    ensures r.name == if upd.name.Some? then upd.name.value else p.name
    ensures r.price == if upd.price.Some? then upd.price.value else p.price
    ensures r.desc == if upd.desc.Some? then upd.desc else p.desc
    ensures r.category == if upd.category.Some? then upd.category else p.category
    ensures r.rating == if upd.rating.Some? then upd.rating.value else p.rating
    ensures r.img == if upd.img.Some? then upd.img.value else p.img
    ensures upd == ProductUpdate(None, None, None, None, None, None) ==> r == p
  {
    Product(
      p.id, Override(upd.img, p.img), Override(upd.name, p.name), Override(upd.price, p.price),
      if upd.desc.Some? then upd.desc else p.desc,
      if upd.category.Some? then upd.category else p.category,
      Override(upd.rating, p.rating))
  }
}
