/** The two send scenarios of the builder, replayed on one builder object each:
    state set by earlier chains is still there for later `Send` calls. */
module NoticeScenarios {
  import opened Wrappers
  import opened TemplateData
  import opened NoticeBuilder

  /** `d` holds `c` under key `k`. */
  predicate Has(d: map<string, Cell>, k: string, c: Cell) {
    k in d && d[k] == c
  }

  /** Validation failure, explicit parameters, then two alias chains. */
  method SendScenario()
    returns (r0: Result<Request, MissingField>, r1: Result<Request, MissingField>,
             r2: Result<Request, MissingField>, r3: Result<Request, MissingField>)
    ensures r0.Failure? && HasSuffix(ErrorMessage(r0.error), " can not be empty!")
    ensures r1.Success? && r1.value.api == SendNotice
      && r1.value.params.touser == "foo" && r1.value.params.templateId == "bar"
      && r1.value.params.data == map[]
    ensures r2.Success? && r2.value.params.touser == "anzhengchao1"
      && r2.value.params.templateId == "test_tpl_id" && r2.value.params.url == "url"
    ensures r3.Success? && r3.value.params.touser == "anzhengchao2"
      && r3.value.params.templateId == "tpl1" && r3.value.params.url == "link"
  {
    var n := new Notice();
    r0 := n.Send(NoParams);
    assert r0 == Failure(MissingField("touser"));
    r1 := n.Send(Params(Some("foo"), Some("bar"), None, None));
    assert r1 == Success(Request(SendNotice, SendParams("foo", "bar", "", map[])));

    var b := n.WithTo("anzhengchao1");
    b := b.WithTemplateId("test_tpl_id");
    b := b.WithUrl("url");
    b := b.WithColor("color");
    assert b == n && n.State() == Message("anzhengchao1", "test_tpl_id", "url", "color", map[]);
    r2 := b.Send(NoParams);

    b := n.Foo("bar");
    b := b.WithReceiver("anzhengchao2");
    b := b.WithTemplate("tpl1");
    b := b.WithLink("link");
    b := b.AndColor("andColor");
    assert b == n && n.State() == Message("anzhengchao2", "tpl1", "link", "andColor", map[]);
    r3 := b.Send(NoParams);
  }

  /** Scalar entries only. */
  const ScalarData: map<string, Entry> := map[
    "first" := Scalar("a"), "keynote1" := Scalar("b"), "keynote2" := Scalar("39.8"),
    "keynote3" := Scalar("2014-9-16"), "remark" := Scalar("e")]

  /** Two-element and one-element lists, a scalar and an unsupported value. */
  const ListData: map<string, Entry> := map[
    "first" := Pair("a", "#555555"), "keynote1" := Pair("b", "#336699"),
    "keynote2" := Single("39.8"), "keynote3" := Pair("2014-9-16", "#888888"),
    "remark" := Scalar("e"), "abc" := Unsupported]

  /** Entries already in `{value, color}` form. */
  const RecordData: map<string, Entry> := map[
    "first" := Record("a", Some("#555555")), "keynote1" := Record("b", Some("#336699")),
    "keynote2" := Record("39.8", Some("#FF0000")), "keynote3" := Record("2014-9-16", Some("#888888")),
    "remark" := Record("e", Some("#5599FF"))]

  predicate ScalarDataSent(d: map<string, Cell>) {
    Has(d, "first", Cell("a", DEFAULT_COLOR)) && Has(d, "keynote1", Cell("b", DEFAULT_COLOR))
    && Has(d, "keynote2", Cell("39.8", DEFAULT_COLOR))
    && Has(d, "keynote3", Cell("2014-9-16", DEFAULT_COLOR)) && Has(d, "remark", Cell("e", DEFAULT_COLOR))
  }

  predicate ListDataSent(d: map<string, Cell>) {
    Has(d, "first", Cell("a", "#555555")) && Has(d, "keynote1", Cell("b", "#336699"))
    && Has(d, "keynote2", Cell("39.8", DEFAULT_COLOR))
    && Has(d, "keynote3", Cell("2014-9-16", "#888888")) && Has(d, "remark", Cell("e", DEFAULT_COLOR))
    && Has(d, "abc", Cell(ERROR_ITEM, DEFAULT_COLOR))
  }

  predicate RecordDataSent(d: map<string, Cell>) {
    Has(d, "first", Cell("a", "#555555")) && Has(d, "keynote1", Cell("b", "#336699"))
    && Has(d, "keynote2", Cell("39.8", "#FF0000"))
    && Has(d, "keynote3", Cell("2014-9-16", "#888888")) && Has(d, "remark", Cell("e", "#5599FF"))
  }

  lemma ScalarDataNormalized()
    ensures ScalarDataSent(Normalize(ScalarData))
  {
  }

  lemma ListDataNormalized()
    ensures ListDataSent(Normalize(ListData))
  {
  }

  lemma RecordDataNormalized()
    ensures RecordDataSent(Normalize(RecordData))
  {
  }

  /** Scalar entries, then lists and an unsupported value, then entries
      already in `{value, color}` form, all sent through one builder whose
      colour is "color1" throughout; that colour never reaches the data. */
  method FormatDataScenario()
    returns (r1: Result<Request, MissingField>, r2: Result<Request, MissingField>,
             r3: Result<Request, MissingField>)
    ensures r1.Success? && r1.value.params.touser == "anzhengchao"
      && r1.value.params.templateId == "overtrue"
    ensures r1.Success? && ScalarDataSent(r1.value.params.data)
    ensures r2.Success? && ListDataSent(r2.value.params.data)
    ensures r3.Success? && RecordDataSent(r3.value.params.data)
  {
    var n := new Notice();
    r1 := SendTo(n, ScalarData);
    ScalarDataNormalized();
    r2 := SendTo(n, ListData);
    ListDataNormalized();
    r3 := SendTo(n, RecordData);
    RecordDataNormalized();
  }

  /** The chain `to('anzhengchao')->color('color1')->template('overtrue')->data(data)->send()`. */
  method SendTo(n: Notice, data: map<string, Entry>) returns (r: Result<Request, MissingField>)
    modifies n
    ensures n.State() == old(n.State()).(touser := "anzhengchao", color := "color1",
      templateId := "overtrue", data := data)
    ensures r == Success(Request(SendNotice, SendParams("anzhengchao", "overtrue", old(n.url), Normalize(data))))
  {
    var b := n.To("anzhengchao");
    b := b.Color("color1");
    b := b.Template("overtrue");
    b := b.Data(data);
    r := b.Send(NoParams);
  }
}
