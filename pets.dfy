/** The pet service (src/pet/pet.service.ts): the shop, consumable items,
    and the equipment slots. Inventory rows carry their own id and are kept
    in insertion order; the equipped table is keyed by (pet, slot), so a
    slot holds at most one item. */
module PetService {
  import opened Outcomes
  import opened Store
  import opened Lookup

  /** The highest value item use raises a stat to. */
  const StatCap: int := 100

  /** Every stored inventory row holds at least one item. */
  ghost predicate QuantitiesPositive(inventory: seq<InventoryRow>) {
    forall i :: 0 <= i < |inventory| ==> inventory[i].quantity >= 1
  }

  /** The position of the user's row for `itemId`, or -1. */
  function RowFor(inventory: seq<InventoryRow>, userId: UserId, itemId: ItemId): (i: int)
    ensures -1 <= i < |inventory|
    ensures i >= 0 ==> inventory[i].userId == userId && inventory[i].itemId == itemId
    ensures i == -1 <==> forall j :: 0 <= j < |inventory| ==> inventory[j].userId != userId || inventory[j].itemId != itemId
  {
    FirstIndex(inventory, (row: InventoryRow) => row.userId == userId && row.itemId == itemId)
  }

  /** The position of the inventory row `id`, or -1. */
  function RowIndex(inventory: seq<InventoryRow>, id: InventoryId): (i: int)
    ensures -1 <= i < |inventory|
    ensures i >= 0 ==> inventory[i].id == id
    ensures i == -1 <==> forall j :: 0 <= j < |inventory| ==> inventory[j].id != id
  {
    FirstIndex(inventory, (row: InventoryRow) => row.id == id)
  }

  /** The balance a purchase debits: gems for a premium item, gold for any
      other. */
  function Price(user: User, item: PetItem): (r: Result<User>)
    ensures r.Failure? <==> (if item.isPremium then user.gems else user.gold) < item.cost
    ensures r.Failure? ==> r.error == Conflict
    ensures r.Success? && item.isPremium ==> r.value == User(user.gold, user.gems - item.cost) && r.value.gems >= 0
    ensures r.Success? && !item.isPremium ==> r.value == User(user.gold - item.cost, user.gems) && r.value.gold >= 0
  {
    if item.isPremium && user.gems < item.cost then Failure(Conflict)
    else if !item.isPremium && user.gold < item.cost then Failure(Conflict)
    else Success(user.(gold := user.gold - (if item.isPremium then 0 else item.cost),
                       gems := user.gems - (if item.isPremium then item.cost else 0)))
  }

  /** Buy one of an item. NotFound for an unknown user or item; Conflict
      when the currency the item is priced in (gems for premium items, gold
      otherwise) falls short, with nothing changed. Otherwise exactly that
      currency drops by the cost, and the user's row for the item gains one,
      or, when there is none, a row holding one is added under the fresh id
      `newRowId`. */
  method BuyItem(db: Store, userId: UserId, itemId: ItemId, newRowId: InventoryId) returns (r: Result<InventoryRow>)
    requires forall row :: row in db.inventory ==> row.id != newRowId
    modifies db`users, db`inventory
    ensures r.Failure? ==> db.users == old(db.users) && db.inventory == old(db.inventory)
    ensures r.Failure? ==>
      r.error == if userId !in old(db.users) || itemId !in db.items then NotFound else Conflict
    ensures r.Success? <==>
      userId in old(db.users) && itemId in db.items && Price(old(db.users)[userId], db.items[itemId]).Success?
    ensures r.Success? ==>
      && db.users == old(db.users)[userId := Price(old(db.users)[userId], db.items[itemId]).value]
      && var i := RowFor(old(db.inventory), userId, itemId);
         if i >= 0 then
           r.value == old(db.inventory)[i].(quantity := old(db.inventory)[i].quantity + 1)
           && db.inventory == old(db.inventory)[i := r.value]
         else
           r.value == InventoryRow(newRowId, userId, itemId, 1) && db.inventory == old(db.inventory) + [r.value]
    ensures QuantitiesPositive(old(db.inventory)) ==> QuantitiesPositive(db.inventory)
  {
    if userId !in db.users || itemId !in db.items {
      return Failure(NotFound);
    }
    var user := db.users[userId];
    var itemToBuy := db.items[itemId];
    if itemToBuy.isPremium {
      if user.gems < itemToBuy.cost {
        return Failure(Conflict);
      }
    } else {
      if user.gold < itemToBuy.cost {
        return Failure(Conflict);
      }
    }
    db.users := db.users[userId := user.(gold := user.gold - (if itemToBuy.isPremium then 0 else itemToBuy.cost),
                                         gems := user.gems - (if itemToBuy.isPremium then itemToBuy.cost else 0))];
    var existing := RowFor(db.inventory, userId, itemId);
    if existing >= 0 {
      var row := db.inventory[existing].(quantity := db.inventory[existing].quantity + 1);
      db.inventory := db.inventory[existing := row];
      r := Success(row);
    } else {
      var row := InventoryRow(newRowId, userId, itemId, 1);
      db.inventory := db.inventory + [row];
      r := Success(row);
    }
  }

  function StatOf(pet: Pet, stat: PetStat): int {
    match stat
    case Health => pet.health
    case Hunger => pet.hunger
    case Happiness => pet.happiness
    case Energy => pet.energy
  }

  /** The pet after an item's effect: the targeted stat becomes
      min(100, stat + value) and the other three are untouched. Only the top
      is clamped: a negative value can take the stat below zero. */
  function ApplyEffect(pet: Pet, stat: PetStat, value: int): (pet': Pet)
    ensures StatOf(pet', stat) == Min(StatCap, StatOf(pet, stat) + value)
    ensures forall s :: s != stat ==> StatOf(pet', s) == StatOf(pet, s)
    ensures pet'.id == pet.id
    ensures StatOf(pet, stat) <= StatCap && value >= 0 ==> StatOf(pet, stat) <= StatOf(pet', stat) <= StatCap
  {
    match stat
    case Health => pet.(health := Min(StatCap, pet.health + value))
    case Hunger => pet.(hunger := Min(StatCap, pet.hunger + value))
    case Happiness => pet.(happiness := Min(StatCap, pet.happiness + value))
    case Energy => pet.(energy := Min(StatCap, pet.energy + value))
  }

  /** Use a consumable from the caller's inventory on the caller's pet.
      NotFound when the row does not exist or is another user's; BadRequest
      for a CUSTOMIZATION item, which is worn, not used; a missing pet is an
      internal error. An item with a stat and a non-zero value applies
      ApplyEffect. One item is used up: the row's quantity drops by one when
      it holds more than one, and the row is deleted otherwise. */
  method UseItemOnPet(db: Store, userId: UserId, rowId: InventoryId) returns (r: Result<Pet>)
    modifies db`pets, db`inventory
    ensures r.Failure? ==> db.pets == old(db.pets) && db.inventory == old(db.inventory)
    ensures var i := RowIndex(old(db.inventory), rowId);
      r.Failure? <==>
        || i < 0 || old(db.inventory)[i].userId != userId
        || old(db.inventory)[i].itemId !in db.items
        || db.items[old(db.inventory)[i].itemId].itemType == Customization
        || userId !in old(db.pets)
    ensures var i := RowIndex(old(db.inventory), rowId);
      r.Failure? ==>
        r.error == if i < 0 || old(db.inventory)[i].userId != userId then NotFound
                   else if old(db.inventory)[i].itemId !in db.items then Internal
                   else if db.items[old(db.inventory)[i].itemId].itemType == Customization then BadRequest
                   else Internal
    ensures r.Success? ==>
      var i := RowIndex(old(db.inventory), rowId);
      var row := old(db.inventory)[i];
      var item := db.items[row.itemId];
      var pet := old(db.pets)[userId];
      && r.value == (if item.statEffect.Some? && item.effectValue != 0
                     then ApplyEffect(pet, item.statEffect.value, item.effectValue) else pet)
      && db.pets == old(db.pets)[userId := r.value]
      && db.inventory == if row.quantity > 1 then old(db.inventory)[i := row.(quantity := row.quantity - 1)]
                         else RemoveAt(old(db.inventory), i)
    ensures QuantitiesPositive(old(db.inventory)) ==> QuantitiesPositive(db.inventory)
  {
    var i := RowIndex(db.inventory, rowId);
    if i < 0 || db.inventory[i].userId != userId {
      return Failure(NotFound);
    }
    var userInventoryItem := db.inventory[i];
    if userInventoryItem.itemId !in db.items {
      return Failure(Internal);
    }
    var item := db.items[userInventoryItem.itemId];
    if item.itemType == Customization {
      return Failure(BadRequest);
    }
    if userId !in db.pets {
      return Failure(Internal);
    }
    var pet := db.pets[userId];
    if item.statEffect.Some? && item.effectValue != 0 {
      pet := ApplyEffect(pet, item.statEffect.value, item.effectValue);
      db.pets := db.pets[userId := pet];
    }
    if userInventoryItem.quantity > 1 {
      db.inventory := db.inventory[i := userInventoryItem.(quantity := userInventoryItem.quantity - 1)];
    } else {
      db.inventory := RemoveAt(db.inventory, i);
    }
    r := Success(pet);
  }

  /** Wear a CUSTOMIZATION item from the caller's inventory. A missing pet is
      an internal error; NotFound when the row does not exist or is another
      user's; BadRequest for an item that is not a CUSTOMIZATION item with a
      slot. Otherwise the item goes into its slot of the pet, replacing what
      the slot held; every other slot is untouched. */
  method EquipItem(db: Store, userId: UserId, rowId: InventoryId) returns (r: Result<()>)
    modifies db`equipped
    ensures var i := RowIndex(db.inventory, rowId);
      r == if userId !in db.pets then Failure(Internal)
           else if i < 0 || db.inventory[i].userId != userId then Failure(NotFound)
           else if db.inventory[i].itemId !in db.items then Failure(Internal)
           else if db.items[db.inventory[i].itemId].itemType != Customization
                   || db.items[db.inventory[i].itemId].equipmentSlot.None? then Failure(BadRequest)
           else Success(())
    ensures r.Success? ==>
      var itemId := db.inventory[RowIndex(db.inventory, rowId)].itemId;
      db.equipped == old(db.equipped)[(db.pets[userId].id, db.items[itemId].equipmentSlot.value) := itemId]
    ensures r.Failure? ==> db.equipped == old(db.equipped)
  {
    if userId !in db.pets {
      return Failure(Internal);
    }
    var pet := db.pets[userId];
    var i := RowIndex(db.inventory, rowId);
    if i < 0 || db.inventory[i].userId != userId {
      return Failure(NotFound);
    }
    var inventoryItem := db.inventory[i];
    if inventoryItem.itemId !in db.items {
      return Failure(Internal);
    }
    var item := db.items[inventoryItem.itemId];
    if item.itemType != Customization || item.equipmentSlot.None? {
      return Failure(BadRequest);
    }
    db.equipped := db.equipped[(pet.id, item.equipmentSlot.value) := inventoryItem.itemId];
    r := Success(());
  }

  /** Take off what the caller's pet wears in `slot`. A missing pet is an
      internal error; NotFound when the slot is empty. Otherwise only that
      slot is cleared. */
  method UnequipItem(db: Store, userId: UserId, slot: EquipmentSlot) returns (r: Result<()>)
    modifies db`equipped
    ensures r == if userId !in db.pets then Failure(Internal)
                 else if (db.pets[userId].id, slot) !in old(db.equipped) then Failure(NotFound)
                 else Success(())
    ensures db.equipped == if r.Success? then old(db.equipped) - {(db.pets[userId].id, slot)} else old(db.equipped)
  {
    if userId !in db.pets {
      return Failure(Internal);
    }
    var pet := db.pets[userId];
    if (pet.id, slot) !in db.equipped {
      return Failure(NotFound);
    }
    db.equipped := db.equipped - {(pet.id, slot)};
    r := Success(());
  }
}
