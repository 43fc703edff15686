/** The customers page's search: a customer is listed when the search term
    occurs in its name, company name or e-mail, compared in lower case, or
    the term as typed occurs in its phone number. Lower-casing is a
    parameter (`lower`), since its Unicode rules are outside the model. */
module CustomersPage {
  import opened Wrappers
  import opened Types
  import opened Text
  import opened Folds

  /** The search predicate. The company name is optional; a missing one
      matches nothing. */
  predicate CustomerMatches(lower: string -> string, term: string, c: Customer) {
    || Includes(lower(c.name), lower(term))
    || (c.companyName.Some? && Includes(lower(c.companyName.value), lower(term)))
    || Includes(lower(c.email), lower(term))
    || Includes(c.phoneNumber, term)
  }

  /** `filteredCustomers`: the matching customers, in list order; nothing
      when the list has not loaded. */
  function FilteredCustomers(lower: string -> string, term: string, customers: Option<seq<Customer>>): (r: seq<Customer>)
    ensures customers.None? ==> r == []
    ensures customers.Some? ==> forall c :: c in r <==> c in customers.value && CustomerMatches(lower, term, c)
  {
    match customers
    case None => []
    case Some(cs) =>
      FilterMembership(cs, (c: Customer) => CustomerMatches(lower, term, c));
      Filter(cs, (c: Customer) => CustomerMatches(lower, term, c))
  }

  /** The search keeps the list order: searching a list made of two parts
      gives the two parts' results one after the other. */
  lemma FilteredCustomersKeepsOrder(lower: string -> string, term: string, pre: seq<Customer>, post: seq<Customer>)
    ensures FilteredCustomers(lower, term, Some(pre + post))
         == FilteredCustomers(lower, term, Some(pre)) + FilteredCustomers(lower, term, Some(post))
  {
    FilterAppend(pre, post, (c: Customer) => CustomerMatches(lower, term, c));
  }

  /** An empty search term lists every customer: the name is always there,
      and the empty string occurs in every string. */
  lemma EmptyTermKeepsAll(lower: string -> string, customers: seq<Customer>)
    requires lower("") == ""
    ensures FilteredCustomers(lower, "", Some(customers)) == customers
  {
    forall i | 0 <= i < |customers| ensures CustomerMatches(lower, "", customers[i]) {
      IncludesEmpty(lower(customers[i].name));
    }
    FilterAll(customers, (c: Customer) => CustomerMatches(lower, "", c));
  }

  /** A phone number is searched as typed: a term found in it keeps the
      customer whatever lower-casing does. */
  lemma PhoneMatchIgnoresCase(lower: string -> string, term: string, c: Customer, customers: seq<Customer>)
    requires c in customers && Includes(c.phoneNumber, term)
    ensures c in FilteredCustomers(lower, term, Some(customers))
  {
  }
}
