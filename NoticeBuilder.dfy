/** The template-message builder: a mutable object whose recipient,
    template id, url, colour and data slots are written by chained alias
    setters, and whose `Send` validates the merged parameters and produces
    one request to the notice-send endpoint. */
module NoticeBuilder {
  import opened Wrappers
  import opened TemplateData

  /** The endpoints of the API; only the notice-send endpoint is used here. */
  datatype Api = SendNotice

  /** The builder's accumulated state. "" marks a slot that was never set. */
  datatype Message = Message(
    touser: string,
    templateId: string,
    url: string,
    color: string,
    data: map<string, Entry>)

  /** The state of a freshly constructed builder. */
  const Initial: Message := Message("", "", "", "", map[])

  /** The string slots of a message. */
  datatype Slot = RecipientSlot | TemplateSlot | UrlSlot | ColorSlot

  function Get(m: Message, s: Slot): string {
    match s
    case RecipientSlot => m.touser
    case TemplateSlot => m.templateId
    case UrlSlot => m.url
    case ColorSlot => m.color
  }

  function Set(m: Message, s: Slot, v: string): (r: Message)
    ensures Get(r, s) == v
    ensures forall t :: t != s ==> Get(r, t) == Get(m, t)
    ensures r.data == m.data
  {
    match s
    case RecipientSlot => m.(touser := v)
    case TemplateSlot => m.(templateId := v)
    case UrlSlot => m.(url := v)
    case ColorSlot => m.(color := v)
  }

  /** One call of the fluent interface, under the name the caller used. */
  datatype Call =
    | WithTo(v: string) | WithReceiver(v: string) | To(v: string)
    | WithTemplateId(v: string) | WithTemplate(v: string) | Template(v: string)
    | WithUrl(v: string) | WithLink(v: string)
    | WithColor(v: string) | AndColor(v: string) | Color(v: string)
    | Data(entries: map<string, Entry>)
    | Foo(v: string)

  /** The slot an alias writes, if it writes a string slot. */
  function SlotOf(c: Call): Option<Slot> {
    match c
    case WithTo(_) => Some(RecipientSlot)
    case WithReceiver(_) => Some(RecipientSlot)
    case To(_) => Some(RecipientSlot)
    case WithTemplateId(_) => Some(TemplateSlot)
    case WithTemplate(_) => Some(TemplateSlot)
    case Template(_) => Some(TemplateSlot)
    case WithUrl(_) => Some(UrlSlot)
    case WithLink(_) => Some(UrlSlot)
    case WithColor(_) => Some(ColorSlot)
    case AndColor(_) => Some(ColorSlot)
    case Color(_) => Some(ColorSlot)
    case Data(_) => None
    case Foo(_) => None
  }

  /** The effect of one call on the builder's state. */
  function Step(m: Message, c: Call): Message {
    match SlotOf(c)
    case Some(s) => Set(m, s, c.v)
    case None => if c.Data? then m.(data := c.entries) else m
  }

  /** The effect of a chain of calls, applied left to right. */
  function Apply(m: Message, cs: seq<Call>): Message
    decreases |cs|
  {
    if cs == [] then m else Apply(Step(m, cs[0]), cs[1..])
  }

  /** Explicit parameters handed to `send`; None when not given. */
  datatype Params = Params(
    touser: Option<string>,
    templateId: Option<string>,
    url: Option<string>,
    data: Option<map<string, Entry>>)

  const NoParams: Params := Params(None, None, None, None)

  /** The parameters of the request that reaches the remote API. */
  datatype SendParams = SendParams(
    touser: string,
    templateId: string,
    url: string,
    data: map<string, Cell>)

  datatype Request = Request(api: Api, params: SendParams)

  /** A required attribute that resolved to nothing at send time. */
  datatype MissingField = MissingField(field: string)

  function ErrorMessage(e: MissingField): (msg: string)
    ensures |msg| >= |e.field| && msg[..|e.field|] == e.field
    ensures HasSuffix(msg, " can not be empty!")
  {
    e.field + " can not be empty!"
  }

  predicate HasSuffix(s: string, suffix: string) {
    |suffix| <= |s| && s[|s| - |suffix|..] == suffix
  }

  /** An explicit value wins when it is given and not empty. */
  function Pick(given: Option<string>, held: string): (r: string)
    ensures given.Some? && given.value != "" ==> r == given.value
    ensures given.None? || given.value == "" ==> r == held
  {
    if given.Some? && given.value != "" then given.value else held
  }

  function PickData(given: Option<map<string, Entry>>, held: map<string, Entry>): (r: map<string, Entry>)
    ensures given.Some? && given.value != map[] ==> r == given.value
    ensures given.None? || given.value == map[] ==> r == held
  {
    if given.Some? && given.value != map[] then given.value else held
  }

  /** What `send` does with the builder state `m` and explicit parameters `p`. */
  function Dispatch(m: Message, p: Params): (r: Result<Request, MissingField>)
    ensures r.Success? <==> Pick(p.touser, m.touser) != "" && Pick(p.templateId, m.templateId) != ""
    ensures r.Failure? && Pick(p.touser, m.touser) == "" ==> r.error == MissingField("touser")
    ensures r.Failure? && Pick(p.touser, m.touser) != "" ==> r.error == MissingField("template_id")
    ensures r.Success? ==> r.value.api == SendNotice
    ensures r.Success? ==> r.value.params.touser == Pick(p.touser, m.touser)
    ensures r.Success? ==> r.value.params.templateId == Pick(p.templateId, m.templateId)
    ensures r.Success? ==> r.value.params.url == Pick(p.url, m.url)
    ensures r.Success? ==> r.value.params.data == Normalize(PickData(p.data, m.data))
  {
    var touser := Pick(p.touser, m.touser);
    var templateId := Pick(p.templateId, m.templateId);
    if touser == "" then Failure(MissingField("touser"))
    else if templateId == "" then Failure(MissingField("template_id"))
    else Success(Request(SendNotice,
      SendParams(touser, templateId, Pick(p.url, m.url), Normalize(PickData(p.data, m.data)))))
  }

  /** Applying a chain piece by piece is applying it whole. */
  lemma {:induction false} ApplyAppend(m: Message, a: seq<Call>, b: seq<Call>)
    ensures Apply(m, a + b) == Apply(Apply(m, a), b)
    decreases |a|
  {
    if a == [] {
      assert a + b == b;
    } else {
      assert (a + b)[0] == a[0];
      assert (a + b)[1..] == a[1..] + b;
      ApplyAppend(Step(m, a[0]), a[1..], b);
    }
  }

  /** A slot no call of the chain writes keeps its value. */
  lemma {:induction false} UnwrittenSlotKept(m: Message, cs: seq<Call>, s: Slot)
    requires forall j :: 0 <= j < |cs| ==> SlotOf(cs[j]) != Some(s)
    ensures Get(Apply(m, cs), s) == Get(m, s)
    decreases |cs|
  {
    if cs != [] {
      assert SlotOf(cs[0]) != Some(s);
      assert forall j :: 0 <= j < |cs[1..]| ==> cs[1..][j] == cs[j + 1];
      UnwrittenSlotKept(Step(m, cs[0]), cs[1..], s);
    }
  }

  /** The last alias call that writes a slot decides its value, whichever
      alias it used. */
  lemma {:induction false} LastWriteWins(m: Message, cs: seq<Call>, s: Slot, i: nat)
    requires i < |cs| && SlotOf(cs[i]) == Some(s)
    requires forall j :: i < j < |cs| ==> SlotOf(cs[j]) != Some(s)
    ensures Get(Apply(m, cs), s) == cs[i].v
    decreases |cs|
  {
    if i == 0 {
      assert forall j :: 0 <= j < |cs[1..]| ==> cs[1..][j] == cs[j + 1];
      UnwrittenSlotKept(Step(m, cs[0]), cs[1..], s);
    } else {
      assert forall j :: 0 <= j < |cs[1..]| ==> cs[1..][j] == cs[j + 1];
      LastWriteWins(Step(m, cs[0]), cs[1..], s, i - 1);
    }
  }

  /** `foo` anywhere in a chain leaves the resulting state, and so what
      `send` produces, as if it had been omitted. */
  lemma {:induction false} FooIsNoOp(m: Message, pre: seq<Call>, x: string, post: seq<Call>, p: Params)
    ensures Apply(m, pre + [Foo(x)] + post) == Apply(m, pre + post)
    ensures Dispatch(Apply(m, pre + [Foo(x)] + post), p) == Dispatch(Apply(m, pre + post), p)
  {
    ApplyAppend(m, pre + [Foo(x)], post);
    ApplyAppend(m, pre, [Foo(x)]);
    ApplyAppend(m, pre, post);
  }

  /** The aliases of one slot are interchangeable. */
  lemma AliasesAgree(m: Message, v: string)
    ensures Step(m, WithTo(v)) == Step(m, WithReceiver(v)) == Step(m, To(v))
    ensures Step(m, WithTemplateId(v)) == Step(m, WithTemplate(v)) == Step(m, Template(v))
    ensures Step(m, WithUrl(v)) == Step(m, WithLink(v))
    ensures Step(m, WithColor(v)) == Step(m, AndColor(v)) == Step(m, Color(v))
  {
  }

  /** The builder colour plays no part in the normalised data: entries
      without a colour of their own get DEFAULT_COLOR whatever it is. */
  lemma BuilderColorIgnoredByData(m: Message, p: Params, c: string)
    ensures Dispatch(m.(color := c), p).Success? == Dispatch(m, p).Success?
    ensures Dispatch(m, p).Success? ==>
      Dispatch(m.(color := c), p).value.params.data == Dispatch(m, p).value.params.data
  {
  }

  /** With nothing set and nothing given, `send` fails on the recipient. */
  lemma NothingSetFails()
    ensures Dispatch(Initial, NoParams) == Failure(MissingField("touser"))
    ensures HasSuffix(ErrorMessage(MissingField("touser")), " can not be empty!")
  {
  }

  /** Explicit recipient and template id are passed through unchanged, and
      `data` is sent as an empty mapping when none was supplied. */
  lemma ExplicitParamsPassThrough(m: Message, touser: string, templateId: string)
    requires touser != "" && templateId != "" && m.data == map[]
    ensures Dispatch(m, Params(Some(touser), Some(templateId), None, None)).Success?
    ensures var q := Dispatch(m, Params(Some(touser), Some(templateId), None, None)).value;
      q.api == SendNotice && q.params.touser == touser && q.params.templateId == templateId
      && q.params.data == map[]
  {
  }

  /** The builder object. Its fields are the slots of `Message`; each alias
      setter writes one of them and returns the builder itself. */
  class Notice {
    var touser: string
    var templateId: string
    var url: string
    var color: string
    var data: map<string, Entry>

    function State(): Message
      reads this
    {
      Message(touser, templateId, url, color, data)
    }

    constructor ()
      ensures State() == Initial
    {
      touser, templateId, url, color, data := "", "", "", "", map[];
    }

    /** The one setter behind the string-slot aliases. */
    method Put(s: Slot, v: string)
      modifies this
      ensures State() == Set(old(State()), s, v)
    {
      match s
      case RecipientSlot => touser := v;
      case TemplateSlot => templateId := v;
      case UrlSlot => url := v;
      case ColorSlot => color := v;
    }

    method WithTo(v: string) returns (self: Notice)
      modifies this
      ensures self == this && State() == Step(old(State()), Call.WithTo(v))
      ensures State() == old(State()).(touser := v)
    {
      Put(RecipientSlot, v);
      self := this;
    }

    method WithReceiver(v: string) returns (self: Notice)
      modifies this
      ensures self == this && State() == Step(old(State()), Call.WithReceiver(v))
      ensures State() == old(State()).(touser := v)
    {
      Put(RecipientSlot, v);
      self := this;
    }

    method To(v: string) returns (self: Notice)
      modifies this
      ensures self == this && State() == Step(old(State()), Call.To(v))
      ensures State() == old(State()).(touser := v)
    {
      Put(RecipientSlot, v);
      self := this;
    }

    method WithTemplateId(v: string) returns (self: Notice)
      modifies this
      ensures self == this && State() == Step(old(State()), Call.WithTemplateId(v))
      ensures State() == old(State()).(templateId := v)
    {
      Put(TemplateSlot, v);
      self := this;
    }

    method WithTemplate(v: string) returns (self: Notice)
      modifies this
      ensures self == this && State() == Step(old(State()), Call.WithTemplate(v))
      ensures State() == old(State()).(templateId := v)
    {
      Put(TemplateSlot, v);
      self := this;
    }

    method Template(v: string) returns (self: Notice)
      modifies this
      ensures self == this && State() == Step(old(State()), Call.Template(v))
      ensures State() == old(State()).(templateId := v)
    {
      Put(TemplateSlot, v);
      self := this;
    }

    method WithUrl(v: string) returns (self: Notice)
      modifies this
      ensures self == this && State() == Step(old(State()), Call.WithUrl(v))
      ensures State() == old(State()).(url := v)
    {
      Put(UrlSlot, v);
      self := this;
    }

    method WithLink(v: string) returns (self: Notice)
      modifies this
      ensures self == this && State() == Step(old(State()), Call.WithLink(v))
      ensures State() == old(State()).(url := v)
    {
      Put(UrlSlot, v);
      self := this;
    }

    method WithColor(v: string) returns (self: Notice)
      modifies this
      ensures self == this && State() == Step(old(State()), Call.WithColor(v))
      ensures State() == old(State()).(color := v)
    {
      Put(ColorSlot, v);
      self := this;
    }

    method AndColor(v: string) returns (self: Notice)
      modifies this
      ensures self == this && State() == Step(old(State()), Call.AndColor(v))
      ensures State() == old(State()).(color := v)
    {
      Put(ColorSlot, v);
      self := this;
    }

    method Color(v: string) returns (self: Notice)
      modifies this
      ensures self == this && State() == Step(old(State()), Call.Color(v))
      ensures State() == old(State()).(color := v)
    {
      Put(ColorSlot, v);
      self := this;
    }

    method Data(entries: map<string, Entry>) returns (self: Notice)
      modifies this
      ensures self == this && State() == Step(old(State()), Call.Data(entries))
      ensures State() == old(State()).(data := entries)
    {
      data := entries;
      self := this;
    }

    /** Accepts and discards its argument. */
    method Foo(v: string) returns (self: Notice)
      ensures self == this && State() == old(State())
    {
      self := this;
    }

    /** Merges `p` over the builder state, checks the required attributes
        and builds the request; the builder state is left as it is. */
    method Send(p: Params) returns (r: Result<Request, MissingField>)
      ensures r == Dispatch(State(), p)
    {
      var to := if p.touser.Some? && p.touser.value != "" then p.touser.value else touser;
      if to == "" {
        return Failure(MissingField("touser"));
      }
      var tpl := if p.templateId.Some? && p.templateId.value != "" then p.templateId.value else templateId;
      if tpl == "" {
        return Failure(MissingField("template_id"));
      }
      var link := if p.url.Some? && p.url.value != "" then p.url.value else url;
      var entries := if p.data.Some? && p.data.value != map[] then p.data.value else data;
      r := Success(Request(SendNotice, SendParams(to, tpl, link, Normalize(entries))));
    }
  }
}
