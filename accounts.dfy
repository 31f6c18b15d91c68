/**
 * accounts/models.py: the user's role predicates and the shipping-address book,
 * whose `save` keeps at most one default address per user.
 */
module Accounts {
  import opened Ids

  datatype Role = Buyer | Seller | Admin

  datatype User = User(role: Role, isSuperuser: bool)

  /** A freshly registered user: role defaults to 'buyer'. */
  function NewUser(isSuperuser: bool): (u: User)
    ensures u.role == Buyer && u.isSuperuser == isSuperuser
  {
    User(Buyer, isSuperuser)
  }

  predicate IsBuyer(u: User) { u.role == Buyer }
  predicate IsSeller(u: User) { u.role == Seller }
  predicate IsAdminUser(u: User) { u.role == Admin || u.isSuperuser }

  /** The role predicates: buyer and seller exclude each other, a new user is a buyer, and a plain seller is no admin. */
  lemma RolePredicates(u: User)
    ensures !(IsBuyer(u) && IsSeller(u))
    ensures IsBuyer(NewUser(u.isSuperuser)) && !IsSeller(NewUser(u.isSuperuser))
    ensures IsSeller(u) && !u.isSuperuser ==> !IsAdminUser(u)
  {
  }

  datatype Address = Address(
    user: UserId,
    fullName: string, phone: string, street: string, city: string,
    state: string, country: string, postalCode: string,
    isDefault: bool)

  /** No user has two default addresses. */
  ghost predicate OneDefaultPerUser(m: map<AddressId, Address>) {
    forall a, b :: a in m && b in m && a != b && m[a].isDefault && m[b].isDefault ==> m[a].user != m[b].user
  }

  /**
   * `Address.save`: when the address being saved is a default one, every default
   * address of the same user is first updated to non-default; then the row is written.
   */
  function SaveAddress(m: map<AddressId, Address>, id: AddressId, a: Address): (r: map<AddressId, Address>)
    ensures r.Keys == m.Keys + {id} && r[id] == a
  {
    var cleared := if a.isDefault
      then map k | k in m :: if m[k].user == a.user then m[k].(isDefault := false) else m[k]
      else m;
    cleared[id := a]
  }

  /** Saving an address keeps at most one default per user, and a saved default is the user's only one. */
  lemma SaveKeepsOneDefault(m: map<AddressId, Address>, id: AddressId, a: Address)
    requires OneDefaultPerUser(m)
    ensures OneDefaultPerUser(SaveAddress(m, id, a))
    ensures a.isDefault ==> forall k :: k in SaveAddress(m, id, a) && k != id && SaveAddress(m, id, a)[k].user == a.user
                              ==> !SaveAddress(m, id, a)[k].isDefault
  {
  }

  /** Saving a non-default address leaves every other address as it was; so does saving for another user. */
  lemma SaveLeavesOthers(m: map<AddressId, Address>, id: AddressId, a: Address, k: AddressId)
    requires k in m && k != id
    requires !a.isDefault || m[k].user != a.user
    ensures SaveAddress(m, id, a)[k] == m[k]
  {
  }

  class AddressBook {
    var addresses: map<AddressId, Address>

    ghost predicate Valid()
      reads this
    {
      OneDefaultPerUser(addresses)
    }

    constructor ()
      ensures Valid() && addresses == map[]
    {
      addresses := map[];
    }

    /** `Address.save` on the row `id`: a bulk update of the user's defaults, then the write. */
    method Save(id: AddressId, a: Address)
      requires Valid()
      modifies this
      ensures Valid()
      ensures addresses == SaveAddress(old(addresses), id, a)
    {
      if a.isDefault {
        addresses := map k | k in addresses :: if addresses[k].user == a.user then addresses[k].(isDefault := false) else addresses[k];
      }
      addresses := addresses[id := a];
      SaveKeepsOneDefault(old(addresses), id, a);
    }
  }
}
