/** The example entities Customer and Contact as metadata records, and what
    the newer generation lays out and captions for them. */
module Fixtures {
  import opened Meta
  import opened DrawOrder
  import opened AgiElementForm
  import opened AgiFormHandler

  const LongId := LongObject
  const CustomerRef := OtherType("Customer")

  const CustomerId := Field("id", LongId, Some(-1), true, false, Some("Identifier"), false, false)
  const CustomerName := Field("name", StringType, Some(2), false, false, Some("Customer caption"), false, false)
  const CustomerDescription := Field("description", StringType, None, false, true, Some("Customer description"), false, false)
  const CustomerColor := Field("color", EnumType(["BRONZE", "SILVER", "GOLD"]), Some(5), false, false, Some("Client grade level"), false, false)
  const CustomerDeals := Field("tradeDeals", OtherType("Set"), None, false, false, None, false, false)
  const CountOfDeals := Method("countOfDeals", true, true, None, Some(100), Some("Count of trade deals with the client"))
  const GetFullName := Method("getFullName", false, false, None, None, None)

  const CustomerClass := EntityClass(
    "example.entity.Customer", None, Some(AgiEntityInfo("Customer", "Our Customers ")), None,
    [CustomerId, CustomerName, CustomerDescription, CustomerColor, CustomerDeals],
    [CountOfDeals, GetFullName])

  const ContactId := Field("id", LongId, Some(3), true, false, None, false, false)
  const ContactComment := Field("comment", StringType, Some(1), false, true, Some("Operator's comment"), false, false)
  const ContactCustomer := Field("customer", CustomerRef, Some(-2), false, false, Some("Customer"), false, false)

  const ContactClass := EntityClass(
    "com.sepnotican.agi.example.entity.Contact", None, Some(AgiEntityInfo("contact", "Contacts")), None,
    [ContactId, ContactComment, ContactCustomer], [])

  lemma CustomerCandidates()
    ensures Candidates(CustomerClass) == [FieldElement(CustomerId), FieldElement(CustomerName),
      FieldElement(CustomerDescription), FieldElement(CustomerColor), FieldElement(CustomerDeals),
      MethodElement(CountOfDeals)]
  {
    var f := FieldCandidate;
    assert CustomerClass.fields == [CustomerId] + ([CustomerName] + ([CustomerDescription] + ([CustomerColor] + ([CustomerDeals] + []))));
    Seqs.FilterMapCons(CustomerDeals, [], f);
    Seqs.FilterMapCons(CustomerColor, [CustomerDeals] + [], f);
    Seqs.FilterMapCons(CustomerDescription, [CustomerColor] + ([CustomerDeals] + []), f);
    Seqs.FilterMapCons(CustomerName, [CustomerDescription] + ([CustomerColor] + ([CustomerDeals] + [])), f);
    Seqs.FilterMapCons(CustomerId, [CustomerName] + ([CustomerDescription] + ([CustomerColor] + ([CustomerDeals] + []))), f);
    assert CustomerClass.methods == [CountOfDeals] + ([GetFullName] + []);
    Seqs.FilterMapCons(GetFullName, [], MethodCandidate);
    Seqs.FilterMapCons(CountOfDeals, [GetFullName] + [], MethodCandidate);
  }

  /** The last four candidates of Customer after sorting. */
  lemma CustomerTailOrder()
    ensures SortByDrawOrder([FieldElement(CustomerDescription), FieldElement(CustomerColor),
      FieldElement(CustomerDeals), MethodElement(CountOfDeals)], ElementOrder)
      == [FieldElement(CustomerColor), MethodElement(CountOfDeals), FieldElement(CustomerDescription), FieldElement(CustomerDeals)]
  {
    var ds, cl, dl, ct :=
      FieldElement(CustomerDescription), FieldElement(CustomerColor), FieldElement(CustomerDeals), MethodElement(CountOfDeals);
    var k := ElementOrder;
    var s1 := SortByDrawOrder([ct], k);
    assert [ct][1..] == [];
    assert SortByDrawOrder([], k) == [];
    assert Insert(ct, [], k) == [ct];
    assert s1 == Insert(ct, SortByDrawOrder([], k), k);
    var s2 := SortByDrawOrder([dl, ct], k);
    assert [dl, ct][1..] == [ct];
    assert s2 == Insert(dl, [ct], k) == [ct] + Insert(dl, [], k) == [ct, dl];
    var s3 := SortByDrawOrder([cl, dl, ct], k);
    assert [cl, dl, ct][1..] == [dl, ct];
    assert s3 == Insert(cl, [ct, dl], k) == [cl, ct, dl];
    var s4 := SortByDrawOrder([ds, cl, dl, ct], k);
    assert [ds, cl, dl, ct][1..] == [cl, dl, ct];
    assert [cl, ct, dl][1..] == [ct, dl] && [ct, dl][1..] == [dl];
    assert Insert(ds, [dl], k) == [ds, dl];
    assert Insert(ds, [ct, dl], k) == [ct] + [ds, dl];
    assert s4 == Insert(ds, [cl, ct, dl], k) == [cl] + [ct, ds, dl];
  }

  /** Customer's members in layout order: the annotated ones ascending (the
      identifier's -1 first, the provider's 100 last), then the unannotated
      fields in declaration order; getFullName is not a provider. */
  lemma CustomerOrder()
    ensures OrderedCandidates(CustomerClass) == [FieldElement(CustomerId), FieldElement(CustomerName),
      FieldElement(CustomerColor), MethodElement(CountOfDeals), FieldElement(CustomerDescription),
      FieldElement(CustomerDeals)]
  {
    CustomerCandidates();
    CustomerTailOrder();
    var id, nm, ds, cl, dl, ct :=
      FieldElement(CustomerId), FieldElement(CustomerName), FieldElement(CustomerDescription),
      FieldElement(CustomerColor), FieldElement(CustomerDeals), MethodElement(CountOfDeals);
    var k := ElementOrder;
    var s5 := SortByDrawOrder([nm, ds, cl, dl, ct], k);
    assert [nm, ds, cl, dl, ct][1..] == [ds, cl, dl, ct];
    assert s5 == Insert(nm, [cl, ct, ds, dl], k) == [nm, cl, ct, ds, dl];
    var c := [id, nm, ds, cl, dl, ct];
    assert c[1..] == [nm, ds, cl, dl, ct];
    assert SortByDrawOrder(c, k) == Insert(id, [nm, cl, ct, ds, dl], k) == [id, nm, cl, ct, ds, dl];
  }

  /** Contact's fields in layout order: negative draw orders come first. */
  lemma ContactOrder()
    ensures OrderedCandidates(ContactClass) == [FieldElement(ContactCustomer), FieldElement(ContactComment), FieldElement(ContactId)]
  {
    var id, cm, cu := FieldElement(ContactId), FieldElement(ContactComment), FieldElement(ContactCustomer);
    var f, k := FieldCandidate, ElementOrder;
    assert ContactClass.fields == [ContactId] + ([ContactComment] + ([ContactCustomer] + []));
    Seqs.FilterMapCons(ContactCustomer, [], f);
    Seqs.FilterMapCons(ContactComment, [ContactCustomer] + [], f);
    Seqs.FilterMapCons(ContactId, [ContactComment] + ([ContactCustomer] + []), f);
    var c := [id, cm, cu];
    assert Candidates(ContactClass) == c;
    assert c[1..] == [cm, cu] && [cm, cu][1..] == [cu];
    assert [cu][1..] == [];
    assert SortByDrawOrder([cu], k) == Insert(cu, [], k) == [cu];
    assert SortByDrawOrder([cm, cu], k) == Insert(cm, [cu], k) == [cu] + Insert(cm, [], k) == [cu, cm];
    assert [cu, cm][1..] == [cm];
    assert Insert(id, [cm], k) == [cm, id];
    assert SortByDrawOrder(c, k) == Insert(id, [cu, cm], k) == [cu] + [cm, id];
  }

  /** Tab captions for Customer: its list tab shows the menu caption, a new
      instance "Customer:new", a saved one the label and its identifier. */
  lemma CustomerCaptions(e: Entity)
    requires e.cls == CustomerClass
    ensures ListCaption(CustomerClass) == Success("Our Customers ")
    ensures ElementCaption(e, true) == Success("Customer:new")
    ensures FieldValue(e, "id") == Some("42") ==> ElementCaption(e, false) == Success("Customer:42")
    ensures FieldValue(e, "id") == None ==> ElementCaption(e, false) == Failure(NullPointer)
  {
    ElementCaptionSpec(e, true);
    assert Label(CustomerClass) == "Customer";
    assert "Customer" + ":" + "new" == "Customer:new";
    assert FirstIdIndex(CustomerClass.fields) == Some(0);
    assert Label(CustomerClass) + ":" + "42" == "Customer:42";
  }

  /** A Contact has no role-less path: its form gets Save and Reload. */
  lemma ContactCommands()
    ensures CommandBar(ContactClass) == [SaveItem, ReloadItem]
  {
  }
}
