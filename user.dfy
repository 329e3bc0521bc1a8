/** The name written into audit entries (lib/user.ts). It is kept in the
    browser's key-value store under `tiendita_user_name`; the first time it is
    needed the user is asked for it with a prompt. */
module UserName {
  import opened Common
  import opened Text
  import opened LocalStorage

  const UserKey: string := "tiendita_user_name"
  /** The name used where there is no window (server rendering). */
  const ServerName: string := "Sistema"
  /** The name used when the prompt is cancelled or answered with blanks. */
  const AnonymousName: string := "Usuario Anónimo"

  /** What one `getUserName` call does on a store holding `entries` when the
      prompt, if shown, is answered with `answer` (None: cancelled). */
  datatype Lookup = Lookup(name: string, prompted: bool, entries: map<string, string>)

  /** The stored name, if there is a non-empty one (`if (stored) return stored`). */
  function StoredName(entries: map<string, string>): Option<string>
  {
    if UserKey in entries && entries[UserKey] != "" then Some(entries[UserKey]) else None
  }

  function LookupName(entries: map<string, string>, answer: Option<string>): Lookup
  {
    if StoredName(entries).Some? then Lookup(StoredName(entries).value, false, entries)
    else if answer.Some? && !IsBlank(answer.value) then
      Lookup(Trim(answer.value), true, entries[UserKey := Trim(answer.value)])
    else Lookup(AnonymousName, true, entries)
  }

  /** The name an audit entry carries: the server name without a window
      (`entries` None), else what `getUserName` finds or asks for. */
  function Actor(entries: Option<map<string, string>>, answer: Option<string>): string
  {
    if entries.None? then ServerName else LookupName(entries.value, answer).name
  }

  /** `getUserName()`; `store == null` is a page rendered without a window. */
  method GetUserName(store: KeyValueStore?, answer: Option<string>) returns (name: string, prompted: bool)
    modifies store
    ensures store == null ==> name == ServerName && !prompted
    ensures store != null ==>
              var l := LookupName(old(store.entries), answer);
              name == l.name && prompted == l.prompted && store.entries == l.entries
  {
    if store == null {
      return ServerName, false;
    }
    var stored := store.GetItem(UserKey);
    if stored.Some? && stored.value != "" {
      return stored.value, false;
    }
    prompted := true;
    if answer.Some? && !IsBlank(answer.value) {
      store.SetItem(UserKey, Trim(answer.value));
      name := Trim(answer.value);
    } else {
      name := AnonymousName;
    }
  }

  /** `setUserName(name)`: stores the trimmed name. */
  method SetUserName(store: KeyValueStore?, name: string)
    modifies store
    ensures store != null ==> store.entries == old(store.entries)[UserKey := Trim(name)]
  {
    if store != null {
      store.SetItem(UserKey, Trim(name));
    }
  }

  /** `clearUserName()`: forgets the name. */
  method ClearUserName(store: KeyValueStore?)
    modifies store
    ensures store != null ==> store.entries == old(store.entries) - {UserKey}
  {
    if store != null {
      store.RemoveItem(UserKey);
    }
  }

  /** A stored non-empty name is returned as it is, without a prompt and
      without touching the store. */
  lemma StoredNameReturned(entries: map<string, string>, answer: Option<string>)
    requires UserKey in entries && entries[UserKey] != ""
    ensures LookupName(entries, answer) == Lookup(entries[UserKey], false, entries)
  {
  }

  /** A non-blank answer to the prompt is stored trimmed and returned trimmed;
      the next lookup then returns the same name without prompting again. */
  lemma AnswerRemembered(entries: map<string, string>, answer: string, next: Option<string>)
    requires StoredName(entries).None?
    requires !IsBlank(answer)
    ensures var l := LookupName(entries, Some(answer));
            && l == Lookup(Trim(answer), true, entries[UserKey := Trim(answer)])
            && LookupName(l.entries, next) == Lookup(Trim(answer), false, l.entries)
  {
  }

  /** A cancelled or blank answer gives the anonymous name and stores nothing,
      so the next lookup prompts again. */
  lemma BlankAnswerForgotten(entries: map<string, string>, answer: Option<string>, next: Option<string>)
    requires StoredName(entries).None?
    requires answer.None? || IsBlank(answer.value)
    ensures LookupName(entries, answer) == Lookup(AnonymousName, true, entries)
    ensures LookupName(entries, next).prompted
  {
  }

  /** After `setUserName(n)` a lookup returns the trimmed name without a prompt,
      unless `n` is blank: then the stored "" counts as no name and it prompts. */
  lemma SetThenGet(entries: map<string, string>, n: string, answer: Option<string>)
    ensures var l := LookupName(entries[UserKey := Trim(n)], answer);
            if IsBlank(n) then l.prompted else l.name == Trim(n) && !l.prompted
  {
  }

  /** After `clearUserName()` the next lookup prompts. */
  lemma ClearThenGet(entries: map<string, string>, answer: Option<string>)
    ensures LookupName(entries - {UserKey}, answer).prompted
  {
  }
}
