/**
 * The character editor: a list/form screen pair over the open project's characters, the
 * chronological list of the events a character takes part in, and the argument picker
 * the palette shows for the edit and delete commands.
 */
module Characters {
  import opened Wrappers
  import opened Model
  import opened Seqs
  import opened Sorting
  import opened ProjectStore
  import opened Timeline
  import opened Commands

  datatype CharacterForm = CharacterForm(name: string, description: string, image: Option<string>)

  const EMPTY_FORM := CharacterForm("", "", None)

  /** `image || null`: an empty path counts as no image. */
  function ImageOrNull(image: Option<string>): (r: Option<string>)
    ensures r.Some? <==> Present(image)
    ensures r.Some? ==> r == image
  {
    if Present(image) then image else None
  }

  /** The form `openEditCommand` fills from a character. */
  function CharacterEditForm(c: Character): CharacterForm {
    CharacterForm(c.name, c.description, ImageOrNull(c.image))
  }

  /** The updates `saveCharacterCommand` passes for a selected character. */
  function FormPatch(form: CharacterForm): CharacterPatch {
    CharacterPatch(None, Some(form.name), Some(form.image), Some(form.description), None)
  }

  function Involves(charId: Id): Event -> bool {
    (e: Event) => charId in e.characters
  }

  /** `getAllEvents`: the events with this participant, in chronological order. */
  function EventsOf(live: Option<Live>, charId: Option<Id>): (r: seq<Event>)
    ensures live.None? || !Present(charId) ==> r == []
    ensures forall i :: 0 <= i < |r| ==> charId.Some? && charId.value in r[i].characters
    ensures live.Some? && Present(charId) ==>
              forall i :: 0 <= i < |live.value.data.events| && charId.value in live.value.data.events[i].characters ==>
                live.value.data.events[i] in r
    ensures live.Some? && Present(charId) ==>
              multiset(r) == multiset(Filter(live.value.data.events, Involves(charId.value)))
    ensures SortedBy(r, EarlierOrSame(live))
  {
    if live.None? || !Present(charId) then []
    else
      var sorted := SortedEvents(live);
      FilterSorted(sorted, Involves(charId.value), EarlierOrSame(live));
      FilterPermutation(sorted, live.value.data.events, Involves(charId.value));
      forall i | 0 <= i < |live.value.data.events|
        ensures live.value.data.events[i] in multiset(sorted)
      {
      }
      Filter(sorted, Involves(charId.value))
  }

  /** The ids `char:edit` and `char:delete` offer: `{ id }` for each character. */
  function IdValue(id: Id): Json {
    JObject(map["id" := JString(id)])
  }

  function CharacterItem(c: Character): PaletteItem {
    PaletteItem(c.name, Some(c.description), IdValue(c.id))
  }

  /** The argsProvider: one item per character, in list order; `undefined` without a project. */
  function CharacterItems(live: Option<Live>): (r: Option<seq<PaletteItem>>)
    ensures r.None? <==> live.None?
    ensures live.Some? ==>
              && |r.value| == |live.value.data.characters|
              && forall i :: 0 <= i < |r.value| ==>
                   && r.value[i].caption == live.value.data.characters[i].name
                   && r.value[i].value == IdValue(live.value.data.characters[i].id)
  {
    if live.None? then None else Some(MapSeq(live.value.data.characters, CharacterItem))
  }

  /** The options `registerCharacterCommands` passes, in registration order. */
  const CHARACTER_COMMANDS: seq<(string, OptionsArg)> := [
    ("char:create", Description("Abrir formulário de novo personagem")),
    ("char:edit", Options(CommandOptions(Some("Editar personagem existente"), None, Some(CharacterItems)))),
    ("char:save", Options(CommandOptions(Some("Salvar formulário atual"), Some(true), None))),
    ("char:delete", Options(CommandOptions(Some("Deletar personagem"), Some(true), Some(CharacterItems)))),
    ("char:cancel", Description("Cancelar edição/criação")),
    ("char:image:pick", Description("Selecionar imagem do disco")),
    ("char:image:remove", Options(CommandOptions(Some("Remover imagem do formulário"), Some(true), None))),
    ("char:events", Description("Retorna todos os eventos que um personagem participou em ordem cronológica crescente."))
  ]

  /** Saving, deleting and removing the image are the character commands taken into history. */
  lemma CharacterCommandFlags()
    ensures forall i :: 0 <= i < |CHARACTER_COMMANDS| ==>
              (OptionsOf(CHARACTER_COMMANDS[i].1).addToHistory == Some(true) <==>
                 CHARACTER_COMMANDS[i].0 in ["char:save", "char:delete", "char:image:remove"])
  {
  }

  class CharacterState {
    const projects: ProjectStore
    var view: Screen
    var selectedId: Option<Id>
    var formData: CharacterForm

    constructor (projects: ProjectStore)
      ensures this.projects == projects && view == ListScreen && selectedId == None && formData == EMPTY_FORM
    {
      this.projects := projects;
      view := ListScreen;
      selectedId := None;
      formData := EMPTY_FORM;
    }

    function Document(): Option<Live>
      reads projects, projects.current
    {
      if projects.current == null then None else Some(projects.current.Current())
    }

    method ResetForm()
      modifies this
      ensures selectedId == None && formData == EMPTY_FORM && view == old(view)
    {
      selectedId := None;
      formData := EMPTY_FORM;
    }

    /** `openCreateCommand`; it then asks `ui:navigate` for the characters tab. */
    method OpenCreate() returns (navigateTo: string)
      modifies this
      ensures selectedId == None && formData == EMPTY_FORM && view == FormScreen
      ensures navigateTo == "characters"
    {
      ResetForm();
      view := FormScreen;
      navigateTo := "characters";
    }

    /** `openEditCommand`; `navigateTo` is the tab passed to `ui:navigate`, if it gets that far. */
    method OpenEdit(id: Id) returns (navigateTo: Option<string>)
      modifies this
      ensures var found := if old(Document()).None? then None else Find(old(Document()).value.data.characters, CharacterWithId(id));
              && (found.None? ==> view == old(view) && selectedId == old(selectedId) && formData == old(formData) && navigateTo == None)
              && (found.Some? ==> view == FormScreen && selectedId == Some(found.value.id)
                                  && formData == CharacterEditForm(found.value) && navigateTo == Some("characters"))
    {
      if projects.current == null {
        return None;
      }
      var character := Find(projects.current.data.characters, CharacterWithId(id));
      if character.None? {
        return None;
      }
      selectedId := Some(character.value.id);
      formData := CharacterEditForm(character.value);
      view := FormScreen;
      navigateTo := Some("characters");
    }

    method CloseForm()
      modifies this
      ensures view == ListScreen && selectedId == None && formData == EMPTY_FORM
    {
      view := ListScreen;
      ResetForm();
    }

    /**
     * `saveCharacterCommand`; `newId` and `now` stand for what `addCharacter` draws. Without
     * a project the store calls are skipped but the form still closes.
     */
    method Save(newId: Id, now: string)
      modifies this, projects.current
      ensures old(formData.name) == "" ==>
                view == old(view) && selectedId == old(selectedId) && formData == old(formData) && Document() == old(Document())
      ensures old(formData.name) != "" ==> view == ListScreen && selectedId == None && formData == EMPTY_FORM
      ensures old(formData.name) != "" && projects.current != null && Present(old(selectedId)) ==>
                && projects.current.data == old(projects.current.data).(characters := UpdatedCharacters(old(projects.current.data.characters), old(selectedId).value, FormPatch(old(formData))))
                && projects.current.changesUnsaved ==
                     (old(projects.current.changesUnsaved) || exists i :: 0 <= i < |old(projects.current.data.characters)| && old(projects.current.data.characters)[i].id == old(selectedId).value)
      ensures old(formData.name) != "" && projects.current != null && !Present(old(selectedId)) ==>
                && projects.current.data == old(projects.current.data).(characters := old(projects.current.data.characters) + [Character(newId, old(formData.name), old(formData.image), old(formData.description), now, None)])
                && projects.current.changesUnsaved
    {
      if formData.name == "" {
        return;
      }
      if projects.current != null {
        if Present(selectedId) {
          projects.current.UpdateCharacter(selectedId.value, FormPatch(formData));
        } else {
          projects.current.AddCharacter(formData.name, formData.description, formData.image, newId, now);
        }
      }
      view := ListScreen;
      ResetForm();
    }

    /** `deleteCharacterCommand`; `confirmed` is the answer to the confirmation dialog. */
    method Delete(id: Id, confirmed: bool)
      modifies this, projects.current
      ensures !confirmed ==>
                view == old(view) && selectedId == old(selectedId) && formData == old(formData) && Document() == old(Document())
      ensures confirmed && projects.current != null ==>
                && projects.current.data == old(projects.current.data).(characters := Filter(old(projects.current.data.characters), CharacterWithOtherId(id)))
                && projects.current.changesUnsaved
      ensures confirmed && old(selectedId) == Some(id) ==> view == ListScreen && selectedId == None && formData == EMPTY_FORM
      ensures confirmed && old(selectedId) != Some(id) ==> view == old(view) && selectedId == old(selectedId) && formData == old(formData)
    {
      if confirmed {
        if projects.current != null {
          projects.current.RemoveCharacter(id);
        }
        if selectedId == Some(id) {
          CloseForm();
        }
      }
    }

    /** `removeImageCommand`. */
    method RemoveImage()
      modifies this
      ensures formData == old(formData).(image := None) && view == old(view) && selectedId == old(selectedId)
    {
      formData := formData.(image := None);
    }
  }
}
