/**
 * The "Cadastro Geral" screen: four tabs, each a form that registers a
 * truck, a driver, a client or a trip with one POST.
 */
module CadastroGeral {
  import opened Wrappers
  import opened Js

  const TruckSaved := "Caminhão cadastrado com sucesso!"
  const TruckFailed := "Erro de conexão com o servidor ou ao cadastrar caminhão."
  const DriverSaved := "Motorista cadastrado com sucesso!"
  const DriverFailed := "Erro de conexão com o servidor ou ao cadastrar motorista."
  const ClientSaved := "Cliente cadastrado com sucesso!"
  const ClientFailed := "Erro de conexão com o servidor ou ao cadastrar cliente."
  const TripSaved := "Viagem cadastrada com sucesso!"
  const TripFailed := "Erro de conexão com o servidor ou ao cadastrar viagem."

  const PlatesFailed := "Erro ao carregar placas."
  const DriversFailed := "Erro ao carregar motoristas."
  const ClientsFailed := "Erro ao carregar clientes."

  const InProgress := "Em andamento"

  /** The truck form's two inputs, sent as `{placa, nome}`. */
  const BlankTruck: map<string, string> := map["placa" := "", "nome" := ""]
  const BlankDriver: map<string, string> := map["nome" := "", "telefone" := ""]
  const BlankClient: map<string, string> := map["nome" := "", "telefone" := "", "email" := "", "endereco" := ""]
  const BlankTrip: map<string, string> := map[
    "placa" := "", "motorista_id" := "", "cliente_id" := "", "inicio" := "", "fim" := "",
    "origem" := "", "destino" := "", "frete" := "", "lucro_total" := "",
    "status" := InProgress, "data_termino" := ""]

  const TripFields: set<string> := {"placa", "motorista_id", "cliente_id", "inicio", "fim",
    "origem", "destino", "frete", "lucro_total", "status", "data_termino"}

  /** The fields each form marks `required`. */
  const TruckRequired: set<string> := {"placa"}
  const DriverRequired: set<string> := {"nome"}
  const ClientRequired: set<string> := {"nome", "email"}
  const TripRequired: set<string> := {"placa", "motorista_id", "cliente_id", "inicio", "fim",
    "origem", "destino", "frete", "lucro_total"}

  /** The fields each form declares as `type="email"`. */
  const ClientEmails: set<string> := {"email"}

  // ---------------------------------------------------------------------------
  // The browser's constraint validation of an e-mail input: a local part of
  // letters, digits and the symbols below, an `@`, and a domain made of
  // dot-separated labels of letters, digits and inner hyphens, 63 characters
  // at most each.

  predicate IsAlnum(c: char) {
    IsDigit(c) || 'a' <= c <= 'z' || 'A' <= c <= 'Z'
  }

  predicate IsLocalChar(c: char) {
    IsAlnum(c) || c in ".!#$%&'*+/=?^_`{|}~-"
  }

  predicate IsLabel(l: string) {
    && 1 <= |l| <= 63
    && IsAlnum(l[0]) && IsAlnum(l[|l| - 1])
    && forall i :: 0 <= i < |l| ==> IsAlnum(l[i]) || l[i] == '-'
  }

  /** Labels separated by single dots. */
  predicate IsDomain(d: string)
    decreases |d|
  {
    var k := DotIndex(d);
    IsLabel(d[..k]) && (k == |d| || IsDomain(d[k + 1..]))
  }

  /** Index of the first `@` in `s`, or `|s|` when there is none. */
  function AtIndex(s: string): (k: nat)
    ensures k <= |s|
    ensures forall i :: 0 <= i < k ==> s[i] != '@'
    ensures k < |s| ==> s[k] == '@'
  {
    if s == [] || s[0] == '@' then 0 else 1 + AtIndex(s[1..])
  }

  predicate IsEmail(s: string) {
    var k := AtIndex(s);
    && 0 < k < |s|
    && (forall i :: 0 <= i < k ==> IsLocalChar(s[i]))
    && IsDomain(s[k + 1..])
  }

  /**
   * The browser lets a form's submit through to its handler only when every
   * required field is filled in and every filled-in e-mail field holds an
   * address.
   */
  predicate Submittable(form: map<string, string>, required: set<string>, emails: set<string>) {
    && (forall k :: k in required ==> k in form && form[k] != "")
    && (forall k :: k in emails && k in form && form[k] != "" ==> IsEmail(form[k]))
  }

  /** A blank form never reaches its handler, so a form just reset after a success is not sent again. */
  lemma BlankFormsBlocked()
    ensures !Submittable(BlankTruck, TruckRequired, {})
    ensures !Submittable(BlankDriver, DriverRequired, {})
    ensures !Submittable(BlankClient, ClientRequired, ClientEmails)
    ensures !Submittable(BlankTrip, TripRequired, {})
  {
    assert "placa" in TruckRequired && BlankTruck["placa"] == "";
    assert "nome" in DriverRequired && BlankDriver["nome"] == "";
    assert "nome" in ClientRequired && BlankClient["nome"] == "";
    assert "placa" in TripRequired && BlankTrip["placa"] == "";
  }

  lemma NoAtIsNoEmail()
    ensures !IsEmail("ana.com")
  {
    assert AtIndex("ana.com") == 7 by {
      assert AtIndex("") == 0;
    }
  }

  lemma ComIsDomain()
    ensures IsDomain("com")
  {
    assert DotIndex("com") == 3 by {
      assert DotIndex("") == 0;
      assert "com"[1..] == "om" && "om"[1..] == "m" && "m"[1..] == "";
    }
    assert "com"[..3] == "com";
    assert IsLabel("com");
  }

  lemma PlainAddressIsEmail()
    ensures IsEmail("a@b.com")
  {
    assert AtIndex("a@b.com") == 1 by {
      assert AtIndex("@b.com") == 0;
    }
    var d := "a@b.com"[2..];
    assert d == "b.com";
    assert DotIndex(d) == 1 by { assert DotIndex(".com") == 0; }
    assert d[..1] == "b" && d[2..] == "com";
    ComIsDomain();
  }

  /** A client whose e-mail has no `@` is held back. */
  lemma MalformedEmailBlocked()
    ensures !Submittable(map["nome" := "Ana", "email" := "ana.com"], ClientRequired, ClientEmails)
  {
    NoAtIsNoEmail();
    var bad := map["nome" := "Ana", "email" := "ana.com"];
    assert "email" in ClientEmails && "email" in bad && bad["email"] == "ana.com";
  }

  /** A client with a name and a plain address goes through. */
  lemma PlainEmailAccepted()
    ensures Submittable(map["nome" := "Ana", "email" := "a@b.com"], ClientRequired, ClientEmails)
  {
    PlainAddressIsEmail();
    var good := map["nome" := "Ana", "email" := "a@b.com"];
    assert good.Keys == ClientRequired;
    assert forall k :: k in ClientEmails ==> k == "email";
  }

  /** A new trip starts with every field empty except its status, which is "in progress". */
  lemma BlankTripShape()
    ensures BlankTrip.Keys == TripFields
    ensures BlankTrip["status"] == InProgress
    ensures forall k :: k in BlankTrip && k != "status" ==> BlankTrip[k] == ""
  {
  }

  /**
   * One registration form: its fields, the POST's outcome messages, the
   * blank values it starts from and returns to after a successful POST, and
   * the fields the browser checks before letting a submit through.
   */
  class EntityForm {
    const blank: map<string, string>
    const required: set<string>
    const emails: set<string>
    const saved: string
    const failed: string
    var form: map<string, string>
    var mensagem: string
    var erro: string

    ghost predicate Valid() {
      saved != "" && failed != ""
    }

    constructor (blank: map<string, string>, required: set<string>, emails: set<string>, saved: string, failed: string)
      requires saved != "" && failed != ""
      ensures Valid()
      ensures this.blank == blank && this.saved == saved && this.failed == failed
      ensures this.required == required && this.emails == emails
      ensures form == blank && mensagem == "" && erro == ""
    {
      this.blank, this.saved, this.failed := blank, saved, failed;
      this.required, this.emails := required, emails;
      form, mensagem, erro := blank, "", "";
    }

    /** `handleChange`: `{...form, [name]: value}`. */
    method Change(name: string, value: string)
      modifies this`form
      ensures form == old(form)[name := value]
      ensures name in form && form[name] == value
      ensures forall k :: k in old(form) && k != name ==> k in form && form[k] == old(form)[k]
    {
      form := form[name := value];
    }

    /**
     * Submitting the form. The browser first checks the required and e-mail
     * fields; when they fail nothing is sent and nothing changes. Otherwise
     * `cadastrar` runs: the form is sent as it is, and `r` is the POST's
     * answer. A success shows `saved` and resets the form; a failure keeps
     * the form and shows the server's `erro`, or `failed` when there is none.
     * Either way exactly one of the two messages is set.
     */
    method Submit(r: Reply) returns (body: Option<map<string, string>>)
      requires Valid()
      modifies this`form, this`mensagem, this`erro
      ensures body.Some? <==> Submittable(old(form), required, emails)
      ensures body.None? ==> form == old(form) && mensagem == old(mensagem) && erro == old(erro)
      ensures body.Some? ==> body.value == old(form)
      ensures body.Some? && r.Ok? ==> form == blank && mensagem == saved && erro == ""
      ensures body.Some? && !r.Ok? ==> form == old(form) && mensagem == "" && erro == ErrorText(r, failed)
      ensures body.Some? && !r.Ok? && !r.HttpError? ==> erro == failed
      ensures body.Some? ==> (mensagem != "") != (erro != "")
    {
      if !Submittable(form, required, emails) {
        return None;
      }
      mensagem := "";
      erro := "";
      body := Some(form);
      if r.Ok? {
        mensagem := saved;
        form := blank;
      } else {
        erro := ErrorText(r, failed);
      }
    }
  }

  method NewTruckForm() returns (f: EntityForm)
    ensures fresh(f) && f.Valid() && f.blank == BlankTruck && f.required == TruckRequired && f.emails == {} && f.saved == TruckSaved && f.failed == TruckFailed
    ensures f.form == BlankTruck && f.mensagem == "" && f.erro == ""
  {
    f := new EntityForm(BlankTruck, TruckRequired, {}, TruckSaved, TruckFailed);
  }

  method NewDriverForm() returns (f: EntityForm)
    ensures fresh(f) && f.Valid() && f.blank == BlankDriver && f.required == DriverRequired && f.emails == {} && f.saved == DriverSaved && f.failed == DriverFailed
    ensures f.form == BlankDriver && f.mensagem == "" && f.erro == ""
  {
    f := new EntityForm(BlankDriver, DriverRequired, {}, DriverSaved, DriverFailed);
  }

  method NewClientForm() returns (f: EntityForm)
    ensures fresh(f) && f.Valid() && f.blank == BlankClient && f.required == ClientRequired && f.emails == ClientEmails && f.saved == ClientSaved && f.failed == ClientFailed
    ensures f.form == BlankClient && f.mensagem == "" && f.erro == ""
  {
    f := new EntityForm(BlankClient, ClientRequired, ClientEmails, ClientSaved, ClientFailed);
  }

  /**
   * The trip form: an entry form plus the three lists its selects offer,
   * each loaded when the form mounts. A load failure writes into the form's
   * `erro`.
   */
  class TripForm {
    const entry: EntityForm
    var placas: Value
    var motoristas: Value
    var clientes: Value

    constructor ()
      ensures fresh(entry) && entry.Valid()
      ensures entry.blank == BlankTrip && entry.saved == TripSaved && entry.failed == TripFailed
      ensures entry.required == TripRequired && entry.emails == {}
      ensures entry.form == BlankTrip && entry.mensagem == "" && entry.erro == ""
      ensures placas == Arr([]) && motoristas == Arr([]) && clientes == Arr([])
    {
      entry := new EntityForm(BlankTrip, TripRequired, {}, TripSaved, TripFailed);
      placas, motoristas, clientes := Arr([]), Arr([]), Arr([]);
    }

    /** The "Cadastre caminhões primeiro" hint. */
    predicate PlatesHint()
      reads this, entry
    {
      Length(placas) == Some(0) && entry.erro == ""
    }

    predicate DriversHint()
      reads this, entry
    {
      Length(motoristas) == Some(0) && entry.erro == ""
    }

    predicate ClientsHint()
      reads this, entry
    {
      Length(clientes) == Some(0) && entry.erro == ""
    }

    /** The answer to `GET /caminhoes`: a failure replaces any earlier error. */
    method FinishLoadPlates(r: Reply)
      modifies this`placas, entry`erro
      ensures r.Ok? ==> placas == r.data && entry.erro == old(entry.erro)
      ensures !r.Ok? ==> placas == Arr([]) && entry.erro == PlatesFailed
      ensures !r.Ok? ==> !PlatesHint() && !DriversHint() && !ClientsHint()
    {
      if r.Ok? {
        placas := r.data;
      } else {
        entry.erro := PlatesFailed;
        placas := Arr([]);
      }
    }

    /**
     * The answer to `GET /motoristas`: a failure appends to the error with a
     * space in front, also when there was no error before.
     */
    method FinishLoadDrivers(r: Reply)
      modifies this`motoristas, entry`erro
      ensures r.Ok? ==> motoristas == r.data && entry.erro == old(entry.erro)
      ensures !r.Ok? ==> motoristas == Arr([]) && entry.erro == old(entry.erro) + " " + DriversFailed
      ensures !r.Ok? ==> old(entry.erro) <= entry.erro && entry.erro[|old(entry.erro)|] == ' '
      ensures !r.Ok? ==> !PlatesHint() && !DriversHint() && !ClientsHint()
    {
      if r.Ok? {
        motoristas := r.data;
      } else {
        entry.erro := entry.erro + " " + DriversFailed;
        motoristas := Arr([]);
      }
    }

    /** The answer to `GET /clientes`, appended like the drivers' error. */
    method FinishLoadClients(r: Reply)
      modifies this`clientes, entry`erro
      ensures r.Ok? ==> clientes == r.data && entry.erro == old(entry.erro)
      ensures !r.Ok? ==> clientes == Arr([]) && entry.erro == old(entry.erro) + " " + ClientsFailed
      ensures !r.Ok? ==> old(entry.erro) <= entry.erro && entry.erro[|old(entry.erro)|] == ' '
      ensures !r.Ok? ==> !PlatesHint() && !DriversHint() && !ClientsHint()
    {
      if r.Ok? {
        clientes := r.data;
      } else {
        entry.erro := entry.erro + " " + ClientsFailed;
        clientes := Arr([]);
      }
    }
  }

  /** The four forms, one per tab. */
  datatype FormKind = TruckTab | DriverTab | ClientTab | TripTab

  const InitialTab := "caminhao"

  function TabName(k: FormKind): string {
    match k
    case TruckTab => "caminhao"
    case DriverTab => "motorista"
    case ClientTab => "cliente"
    case TripTab => "viagem"
  }

  /** The forms rendered for `activeTab`: one `activeTab === ... &&` per form. */
  function RenderedForms(activeTab: string): seq<FormKind> {
    (if activeTab == "caminhao" then [TruckTab] else []) +
    (if activeTab == "motorista" then [DriverTab] else []) +
    (if activeTab == "cliente" then [ClientTab] else []) +
    (if activeTab == "viagem" then [TripTab] else [])
  }

  /**
   * Each tab shows exactly its own form, any other value shows none, and
   * the screen opens on the truck form.
   */
  lemma ExactlyOneForm(tab: string)
    ensures forall k :: RenderedForms(TabName(k)) == [k]
    ensures (forall k :: tab != TabName(k)) ==> RenderedForms(tab) == []
    ensures |RenderedForms(tab)| <= 1
    ensures RenderedForms(InitialTab) == [TruckTab]
  {
  }
}
