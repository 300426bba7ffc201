/** The rows of the backend tables the core reads and writes, and the backend
    itself as one object whose tables are sequences of rows. Columns that may be
    null are `Option`s. Identifiers the backend generates (row ids, folios,
    timestamps) are never invented here: the operations take them as inputs. */
module Schema {
  import opened Wrappers

  /** A user's role row: the role name and the branch (`sucursal`) it is tied to. */
  datatype Role = Role(role: string, sucursal: Option<string>)

  /** A row of `profiles`; `full_name` may be null. */
  datatype Profile = Profile(id: string, fullName: Option<string>)

  /** A row of `productos`. */
  datatype Product = Product(
    id: int,
    nombre: string,
    precio: real,
    empaque: string,
    descripcion: string,
    catalogo: string,
    categoria: string,
    subcategoria: string,
    tipo: string,
    descripcionVenta: string,
    imagenUrl: string,
    campaignId: Option<int>,
    isActive: bool)

  /** A row of `ordenes_compra`, the order header. */
  datatype Order = Order(
    id: string,
    folio: int,
    customerName: string,
    customerPhone: Option<string>,
    sucursal: string,
    deliveryDate: Option<string>,
    deliveryTime: Option<string>,
    deliveryType: string,
    deliveryAddress: Option<string>,
    paymentMethod: Option<string>,
    status: string,
    paymentStatus: string,
    paidAmount: Option<real>,
    total: Option<real>,
    createdAt: int,
    createdBy: string,
    notes: Option<string>)

  /** A row of `orden_compra_detalles`, one line item of an order; the unit price
      is a snapshot taken when the line was written. */
  datatype Detail = Detail(
    id: int,
    orderId: string,
    productId: int,
    cantidad: Option<int>,
    precioUnitario: Option<real>)

  /** A row of `orden_pagos`, one partial payment. */
  datatype Payment = Payment(
    id: string,
    orderId: string,
    amount: real,
    notes: Option<string>,
    createdAt: int,
    createdBy: Option<string>)

  /** A row of `branch_stock`: the declared quantity of a product at a branch. */
  datatype StockRow = StockRow(
    id: string,
    productId: int,
    sucursal: string,
    quantity: Option<int>,
    updatedAt: Option<int>)

  /** A row of `requisiciones`. */
  datatype Requisition = Requisition(
    id: int,
    sucursal: string,
    solicitante: Option<string>,
    puesto: string,
    createdBy: string,
    status: string,
    createdAt: int)

  /** A row of `requisicion_detalles`. */
  datatype RequisitionDetail = RequisitionDetail(requisicionId: int, productoId: int, cantidad: int)

  /** The backend: every table the core touches. */
  class Database {
    var orders: seq<Order>
    var details: seq<Detail>
    var payments: seq<Payment>
    var branchStock: seq<StockRow>
    var products: seq<Product>
    var requisitions: seq<Requisition>
    var requisitionDetails: seq<RequisitionDetail>

    constructor Empty()
      ensures orders == [] && details == [] && payments == [] && branchStock == []
      ensures products == [] && requisitions == [] && requisitionDetails == []
    {
      orders, details, payments, branchStock := [], [], [], [];
      products, requisitions, requisitionDetails := [], [], [];
    }
  }
}
