/** `pmprore_add_to_templates`: registers one editable template per configured
    reminder tier with the email-templates add-on. */
module Templates {
  import opened Tiers

  datatype TemplateEntry = TemplateEntry(subject: string, description: string, body: string)

  const SubjectPrefix: string := "Happening soon: The recurring payment for your membership at "
  const DescriptionPrefix: string := "Membership level recurring payment message for "

  /** The entry registered for a reminder template on site `site`; the body is the
      contents of emails/<template>.html, given here as `body`. */
  function ReminderTemplate(site: string, body: string): TemplateEntry {
    TemplateEntry(SubjectPrefix + site, DescriptionPrefix + site, body)
  }

  /** The template ids the tier configuration names. */
  function TemplateNames(config: Config): set<string> {
    set d | d in config :: config[d]
  }

  /** Every template a configured tier names gets the reminder entry (later writes
      of the same name store the same entry); every other template is left as it was. */
  method AddToTemplates(templates: map<string, TemplateEntry>, tierFilter: Config -> Config,
                        site: string, bodyOf: string -> string)
    returns (r: map<string, TemplateEntry>)
    ensures r.Keys == templates.Keys + TemplateNames(tierFilter(DefaultConfig()))
    ensures forall t :: t in TemplateNames(tierFilter(DefaultConfig())) ==> r[t] == ReminderTemplate(site, bodyOf(t))
    ensures forall t :: t in templates && t !in TemplateNames(tierFilter(DefaultConfig())) ==> r[t] == templates[t]
  {
    var reEmails := tierFilter(DefaultConfig());
    r := templates;
    var todo := reEmails.Keys;
    ghost var added: set<string> := {};
    while todo != {}
      invariant todo <= reEmails.Keys
      invariant forall d :: d in reEmails && d !in todo ==> reEmails[d] in added
      invariant added <= TemplateNames(reEmails)
      invariant r.Keys == templates.Keys + added
      invariant forall t :: t in added ==> r[t] == ReminderTemplate(site, bodyOf(t))
      invariant forall t :: t in templates && t !in added ==> r[t] == templates[t]
      decreases todo
    {
      HasMember(todo);
      var days :| days in todo;
      var templ := reEmails[days];
      assert templ in TemplateNames(reEmails);
      r := r[templ := ReminderTemplate(site, bodyOf(templ))];
      added := added + {templ};
      todo := todo - {days};
    }
    forall t | t in TemplateNames(reEmails) ensures t in added {
      var d :| d in reEmails && reEmails[d] == t;
    }
  }
}
